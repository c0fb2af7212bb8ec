/**
 * `WidgetNames`: the enum of widget kinds. Each member's value is its
 * description name and it carries the name of the widget-object class
 * that draws it; a class-level registry maps class names to members.
 */
module WidgetNames {
  import opened Wrappers
  import opened SeqUtil
  import Config
  import TreeDto

  datatype WidgetName =
    | WINDOW
    | GROUP_BOX
    | LINE_EDIT_COMBOBOX_FORM_BOX
    | RADIOBUTTON_BOX
    | CHECKBOX_BOX
    | LABELED_LINE_EDIT
    | LABELED_CHECKABLE_LINE_EDIT
    | LABELED_COMBOBOX
    | LABELED_CHECKABLE_COMBOBOX
    | LABELED_RADIOBUTTON
    | LABELED_CHECKBOX
    | LABELED_INPUT
    | REVERSED_LABELED_LINE_EDIT
    | REVERSED_LABELED_CHECKABLE_LINE_EDIT
    | REVERSED_LABELED_COMBOBOX
    | REVERSED_LABELED_CHECKABLE_COMBOBOX
    | REVERSED_LABELED_RADIOBUTTON
    | REVERSED_LABELED_CHECKBOX
    | REVERSED_LABELED_INPUT
    | TOP_LABELED_LINE_EDIT
    | TOP_LABELED_CHECKABLE_LINE_EDIT
    | TOP_LABELED_CHECKABLE_COMBOBOX
    | TOP_LABELED_COMBOBOX
    | TOP_LABELED_RADIOBUTTON
    | TOP_LABELED_CHECKBOX
    | TOP_LABELED_INPUT
    | LIST
    | TABLE
    | TEXTAREA
    | TREE_VIEW
    | MENU_ITEM
    | LABEL
    | BUTTON
    | SCROLL_BAR_BUTTON
    | CHECKBOX
    | RADIOBUTTON
    | LINE_EDIT
    | CHECKABLE_LINE_EDIT
    | COMBOBOX
    | CHECKABLE_COMBOBOX
    | VERT_SCROLL_BAR
    | HOR_SCROLL_BAR
    | STATUS_BAR
    | TAB_BUTTON
    | TAB_BAR
    | INPUT
    | TEXT_ELEMENT

  /** The position of each member in declaration order. */
  function Ordinal(w: WidgetName): (i: nat)
    ensures i < 47 && FromOrdinal(i) == w
  {
    match w
    case WINDOW => 0
    case GROUP_BOX => 1
    case LINE_EDIT_COMBOBOX_FORM_BOX => 2
    case RADIOBUTTON_BOX => 3
    case CHECKBOX_BOX => 4
    case LABELED_LINE_EDIT => 5
    case LABELED_CHECKABLE_LINE_EDIT => 6
    case LABELED_COMBOBOX => 7
    case LABELED_CHECKABLE_COMBOBOX => 8
    case LABELED_RADIOBUTTON => 9
    case LABELED_CHECKBOX => 10
    case LABELED_INPUT => 11
    case REVERSED_LABELED_LINE_EDIT => 12
    case REVERSED_LABELED_CHECKABLE_LINE_EDIT => 13
    case REVERSED_LABELED_COMBOBOX => 14
    case REVERSED_LABELED_CHECKABLE_COMBOBOX => 15
    case REVERSED_LABELED_RADIOBUTTON => 16
    case REVERSED_LABELED_CHECKBOX => 17
    case REVERSED_LABELED_INPUT => 18
    case TOP_LABELED_LINE_EDIT => 19
    case TOP_LABELED_CHECKABLE_LINE_EDIT => 20
    case TOP_LABELED_CHECKABLE_COMBOBOX => 21
    case TOP_LABELED_COMBOBOX => 22
    case TOP_LABELED_RADIOBUTTON => 23
    case TOP_LABELED_CHECKBOX => 24
    case TOP_LABELED_INPUT => 25
    case LIST => 26
    case TABLE => 27
    case TEXTAREA => 28
    case TREE_VIEW => 29
    case MENU_ITEM => 30
    case LABEL => 31
    case BUTTON => 32
    case SCROLL_BAR_BUTTON => 33
    case CHECKBOX => 34
    case RADIOBUTTON => 35
    case LINE_EDIT => 36
    case CHECKABLE_LINE_EDIT => 37
    case COMBOBOX => 38
    case CHECKABLE_COMBOBOX => 39
    case VERT_SCROLL_BAR => 40
    case HOR_SCROLL_BAR => 41
    case STATUS_BAR => 42
    case TAB_BUTTON => 43
    case TAB_BAR => 44
    case INPUT => 45
    case TEXT_ELEMENT => 46
  }

  /** The member declared at position `i`. */
  function FromOrdinal(i: nat): (w: WidgetName)
    requires i < 47
  {
    if i == 0 then WINDOW
    else if i == 1 then GROUP_BOX
    else if i == 2 then LINE_EDIT_COMBOBOX_FORM_BOX
    else if i == 3 then RADIOBUTTON_BOX
    else if i == 4 then CHECKBOX_BOX
    else if i == 5 then LABELED_LINE_EDIT
    else if i == 6 then LABELED_CHECKABLE_LINE_EDIT
    else if i == 7 then LABELED_COMBOBOX
    else if i == 8 then LABELED_CHECKABLE_COMBOBOX
    else if i == 9 then LABELED_RADIOBUTTON
    else if i == 10 then LABELED_CHECKBOX
    else if i == 11 then LABELED_INPUT
    else if i == 12 then REVERSED_LABELED_LINE_EDIT
    else if i == 13 then REVERSED_LABELED_CHECKABLE_LINE_EDIT
    else if i == 14 then REVERSED_LABELED_COMBOBOX
    else if i == 15 then REVERSED_LABELED_CHECKABLE_COMBOBOX
    else if i == 16 then REVERSED_LABELED_RADIOBUTTON
    else if i == 17 then REVERSED_LABELED_CHECKBOX
    else if i == 18 then REVERSED_LABELED_INPUT
    else if i == 19 then TOP_LABELED_LINE_EDIT
    else if i == 20 then TOP_LABELED_CHECKABLE_LINE_EDIT
    else if i == 21 then TOP_LABELED_CHECKABLE_COMBOBOX
    else if i == 22 then TOP_LABELED_COMBOBOX
    else if i == 23 then TOP_LABELED_RADIOBUTTON
    else if i == 24 then TOP_LABELED_CHECKBOX
    else if i == 25 then TOP_LABELED_INPUT
    else if i == 26 then LIST
    else if i == 27 then TABLE
    else if i == 28 then TEXTAREA
    else if i == 29 then TREE_VIEW
    else if i == 30 then MENU_ITEM
    else if i == 31 then LABEL
    else if i == 32 then BUTTON
    else if i == 33 then SCROLL_BAR_BUTTON
    else if i == 34 then CHECKBOX
    else if i == 35 then RADIOBUTTON
    else if i == 36 then LINE_EDIT
    else if i == 37 then CHECKABLE_LINE_EDIT
    else if i == 38 then COMBOBOX
    else if i == 39 then CHECKABLE_COMBOBOX
    else if i == 40 then VERT_SCROLL_BAR
    else if i == 41 then HOR_SCROLL_BAR
    else if i == 42 then STATUS_BAR
    else if i == 43 then TAB_BUTTON
    else if i == 44 then TAB_BAR
    else if i == 45 then INPUT
    else TEXT_ELEMENT
  }

  lemma OrdinalRoundTrip(i: nat)
    requires i < 47
    ensures Ordinal(FromOrdinal(i)) == i
  {
    if i < 16 {
      OrdinalsLow(i);
    } else if i < 32 {
      OrdinalsMiddle(i);
    } else if i < 40 {
      OrdinalsHigh(i);
    } else if i < 44 {
      OrdinalsLast(i);
    } else {
      OrdinalsFinal(i);
    }
  }

  lemma OrdinalsLow(i: nat)
    requires i < 16
    ensures Ordinal(FromOrdinal(i)) == i
  {
  }

  lemma OrdinalsMiddle(i: nat)
    requires 16 <= i < 32
    ensures Ordinal(FromOrdinal(i)) == i
  {
  }

  lemma OrdinalsHigh(i: nat)
    requires 32 <= i < 40
    ensures Ordinal(FromOrdinal(i)) == i
  {
  }

  lemma OrdinalsLast(i: nat)
    requires 40 <= i < 44
    ensures Ordinal(FromOrdinal(i)) == i
  {
  }

  lemma OrdinalsFinal(i: nat)
    requires 44 <= i < 47
    ensures Ordinal(FromOrdinal(i)) == i
  {
    if i == 44 {
    } else if i == 45 {
    } else {
    }
  }

  /** The members in declaration order. */
  function Members(): (ms: seq<WidgetName>)
    ensures |ms| == 47
    ensures forall i :: 0 <= i < |ms| ==> ms[i] == FromOrdinal(i)
    ensures forall w :: ms[Ordinal(w)] == w
  {
    seq(47, i requires 0 <= i < 47 => FromOrdinal(i))
  }

  /** The member's value (its description name). */
  function Value(w: WidgetName): string {
    match w
    case WINDOW => "Window"
    case GROUP_BOX => "GroupBox"
    case LINE_EDIT_COMBOBOX_FORM_BOX => "LineEditComboboxFormBox"
    case RADIOBUTTON_BOX => "RadioButtonBox"
    case CHECKBOX_BOX => "CheckboxBox"
    case LABELED_LINE_EDIT => "LabeledLineEdit"
    case LABELED_CHECKABLE_LINE_EDIT => "LabeledCheckableLineEdit"
    case LABELED_COMBOBOX => "LabeledComboBox"
    case LABELED_CHECKABLE_COMBOBOX => "LabeledCheckableComboBox"
    case LABELED_RADIOBUTTON => "LabeledRadioButton"
    case LABELED_CHECKBOX => "LabeledCheckbox"
    case LABELED_INPUT => "LabeledInput"
    case REVERSED_LABELED_LINE_EDIT => "ReversedLabeledLineEdit"
    case REVERSED_LABELED_CHECKABLE_LINE_EDIT => "ReversedLabeledCheckableLineEdit"
    case REVERSED_LABELED_COMBOBOX => "ReversedLabeledComboBox"
    case REVERSED_LABELED_CHECKABLE_COMBOBOX => "ReversedLabeledCheckableComboBox"
    case REVERSED_LABELED_RADIOBUTTON => "ReversedLabeledRadioButton"
    case REVERSED_LABELED_CHECKBOX => "ReversedLabeledCheckbox"
    case REVERSED_LABELED_INPUT => "ReversedLabeledInput"
    case TOP_LABELED_LINE_EDIT => "TopLabeledLineEdit"
    case TOP_LABELED_CHECKABLE_LINE_EDIT => "TopLabeledCheckableLineEdit"
    case TOP_LABELED_CHECKABLE_COMBOBOX => "TopLabeledCheckableComboBox"
    case TOP_LABELED_COMBOBOX => "TopLabeledComboBox"
    case TOP_LABELED_RADIOBUTTON => "TopLabeledRadioButton"
    case TOP_LABELED_CHECKBOX => "TopLabeledCheckbox"
    case TOP_LABELED_INPUT => "TopLabeledInput"
    case LIST => "List"
    case TABLE => "Table"
    case TEXTAREA => "TextArea"
    case TREE_VIEW => "TreeView"
    case MENU_ITEM => "MenuItem"
    case LABEL => "Label"
    case BUTTON => "Button"
    case SCROLL_BAR_BUTTON => "ScrollBarButton"
    case CHECKBOX => "Checkbox"
    case RADIOBUTTON => "RadioButton"
    case LINE_EDIT => "LineEdit"
    case CHECKABLE_LINE_EDIT => "CheckableLineEdit"
    case COMBOBOX => "Combobox"
    case CHECKABLE_COMBOBOX => "CheckableComboBox"
    case VERT_SCROLL_BAR => "VertScrollBar"
    case HOR_SCROLL_BAR => "HorScrollBar"
    case STATUS_BAR => "StatusBar"
    case TAB_BUTTON => "TabButton"
    case TAB_BAR => "TabBar"
    case INPUT => "Input"
    case TEXT_ELEMENT => "TextElement"
  }

  /** The widget-object class that draws the member. */
  function WoClassName(w: WidgetName): string {
    match w
    case WINDOW => "MainWindowWidget"
    case GROUP_BOX => "GroupBoxContainerWidget"
    case LINE_EDIT_COMBOBOX_FORM_BOX => "FormBoxContainerWidget"
    case RADIOBUTTON_BOX => "FormBoxContainerWidget"
    case CHECKBOX_BOX => "FormBoxContainerWidget"
    case LABELED_LINE_EDIT => "LabeledLineEditHFormItemWidget"
    case LABELED_CHECKABLE_LINE_EDIT => "LabeledCheckableLineEditHFormItemWidget"
    case LABELED_COMBOBOX => "LabeledComboBoxHFormItemWidget"
    case LABELED_CHECKABLE_COMBOBOX => "LabeledCheckableComboBoxHFormItemWidget"
    case LABELED_RADIOBUTTON => "LabeledRadioButtonHFormItemWidget"
    case LABELED_CHECKBOX => "LabeledCheckBoxHFormItemWidget"
    case LABELED_INPUT => "LabeledInputHFormItemWidget"
    case REVERSED_LABELED_LINE_EDIT => "RevLabeledLineEditHFormItemWidget"
    case REVERSED_LABELED_CHECKABLE_LINE_EDIT => "RevLabeledCheckableLineEditHFormItemWidget"
    case REVERSED_LABELED_COMBOBOX => "RevLabeledComboBoxHFormItemWidget"
    case REVERSED_LABELED_CHECKABLE_COMBOBOX => "RevLabeledCheckableComboBoxHFormItemWidget"
    case REVERSED_LABELED_RADIOBUTTON => "RevLabeledRadioButtonHFormItemWidget"
    case REVERSED_LABELED_CHECKBOX => "RevLabeledCheckBoxHFormItemWidget"
    case REVERSED_LABELED_INPUT => "RevInputEditHFormItemWidget"
    case TOP_LABELED_LINE_EDIT => "TopLabeledLineEditVFormItemWidget"
    case TOP_LABELED_CHECKABLE_LINE_EDIT => "TopLabeledCheckableLineEditVFormItemWidget"
    case TOP_LABELED_CHECKABLE_COMBOBOX => "TopLabeledCheckableComboBoxVFormItemWidget"
    case TOP_LABELED_COMBOBOX => "TopLabeledComboBoxVFormItemWidget"
    case TOP_LABELED_RADIOBUTTON => "TopLabeledRadioButtonVFormItemWidget"
    case TOP_LABELED_CHECKBOX => "TopLabeledCheckBoxVFormItemWidget"
    case TOP_LABELED_INPUT => "TopLabeledInputVFormItemWidget"
    case LIST => "ListWidget"
    case TABLE => "TableWidget"
    case TEXTAREA => "TextAreaWidget"
    case TREE_VIEW => "TreeViewWidget"
    case MENU_ITEM => "MenuItemWidget"
    case LABEL => "LabelWidget"
    case BUTTON => "ButtonWidget"
    case SCROLL_BAR_BUTTON => "ScrollBarButtonWidget"
    case CHECKBOX => "CheckBoxWidget"
    case RADIOBUTTON => "RadioButtonWidget"
    case LINE_EDIT => "LineEditWidget"
    case CHECKABLE_LINE_EDIT => "CheckableLineEditWidget"
    case COMBOBOX => "ComboBoxWidget"
    case CHECKABLE_COMBOBOX => "CheckableComboBoxWidget"
    case VERT_SCROLL_BAR => "VertScrollBarWidget"
    case HOR_SCROLL_BAR => "HorScrollBarWidget"
    case STATUS_BAR => "StatusBarWidget"
    case TAB_BUTTON => "TabButtonWidget"
    case TAB_BAR => "TabWidget"
    case INPUT => "InputWidget"
    case TEXT_ELEMENT => "TextElementWidget"
  }

  /** No member is declared twice. */
  lemma MembersDistinct()
    ensures Distinct(Members())
  {
    var ms := Members();
    forall i, j | 0 <= i < j < |ms| ensures ms[i] != ms[j] {
      OrdinalRoundTrip(i);
      OrdinalRoundTrip(j);
    }
  }

  /** `get_possible_enum_names`: every member's value, in declaration order. */
  function GetPossibleEnumNames(): (r: seq<string>)
    ensures |r| == |Members()|
    ensures forall i :: 0 <= i < |r| ==> r[i] == Value(Members()[i])
    ensures forall w :: Value(w) in r
  {
    var ms := Members();
    var r := seq(|ms|, i requires 0 <= i < |ms| => Value(ms[i]));
    assert forall w :: r[Ordinal(w)] == Value(w);
    r
  }

  /**
   * The registry as the members' `__init__` leave it: filled in
   * declaration order, so a class name drawn by several members maps to
   * the last of them.
   */
  function RegistryOf(ms: seq<WidgetName>): (m: map<string, WidgetName>)
    ensures forall c :: c in m <==> LastIndexWithKey(ms, WoClassName, c).Some?
    ensures forall c :: c in m ==> m[c] == ms[LastIndexWithKey(ms, WoClassName, c).value]
  {
    MapByKey(ms, WoClassName)
  }

  /** Every member's class is registered, to a member of that class. */
  lemma EveryClassRegistered(w: WidgetName)
    ensures WoClassName(w) in RegistryOf(Members())
    ensures WoClassName(RegistryOf(Members())[WoClassName(w)]) == WoClassName(w)
    ensures Ordinal(w) <= Ordinal(RegistryOf(Members())[WoClassName(w)])
  {
    var ms := Members();
    MapByKeyHas(ms, WoClassName, Ordinal(w));
    var last := LastIndexWithKey(ms, WoClassName, WoClassName(w));
    OrdinalRoundTrip(last.value);
  }

  /** A member that is the only one of its class is what the registry gives back for that class. */
  lemma RegistryRoundTrip(w: WidgetName)
    requires forall v :: WoClassName(v) == WoClassName(w) ==> v == w
    ensures WoClassName(w) in RegistryOf(Members()) && RegistryOf(Members())[WoClassName(w)] == w
  {
    EveryClassRegistered(w);
  }

  /**
   * The three form boxes share `FormBoxContainerWidget`; the registry
   * ends with the last of them, CHECKBOX_BOX.
   */
  lemma FormBoxRegistersLast()
    ensures "FormBoxContainerWidget" in RegistryOf(Members())
    ensures RegistryOf(Members())["FormBoxContainerWidget"] == CHECKBOX_BOX
  {
    var ms := Members();
    var c := "FormBoxContainerWidget";
    assert WoClassName(ms[4]) == c;
    forall j | 4 < j < |ms| ensures WoClassName(ms[j]) != c {
      FormBoxOrdinals(ms[j]);
      OrdinalRoundTrip(j);
    }
    var last := LastIndexWithKey(ms, WoClassName, c);
    assert last.Some?;
    assert last.value == 4;
  }

  /** Only the members at positions 2 to 4 are drawn by `FormBoxContainerWidget`. */
  lemma FormBoxOrdinals(w: WidgetName)
    ensures WoClassName(w) == "FormBoxContainerWidget" <==> 2 <= Ordinal(w) <= 4
  {
    match w
    case LINE_EDIT_COMBOBOX_FORM_BOX | RADIOBUTTON_BOX | CHECKBOX_BOX =>
    case WINDOW | GROUP_BOX | LABELED_LINE_EDIT | LABELED_CHECKABLE_LINE_EDIT |
         LABELED_COMBOBOX | LABELED_CHECKABLE_COMBOBOX | LABELED_RADIOBUTTON | LABELED_CHECKBOX =>
      NotFormBoxFirst(w);
    case LABELED_INPUT | REVERSED_LABELED_LINE_EDIT | REVERSED_LABELED_CHECKABLE_LINE_EDIT | REVERSED_LABELED_COMBOBOX |
         REVERSED_LABELED_CHECKABLE_COMBOBOX | REVERSED_LABELED_RADIOBUTTON | REVERSED_LABELED_CHECKBOX | REVERSED_LABELED_INPUT =>
      NotFormBoxSecond(w);
    case TOP_LABELED_LINE_EDIT | TOP_LABELED_CHECKABLE_LINE_EDIT | TOP_LABELED_CHECKABLE_COMBOBOX | TOP_LABELED_COMBOBOX |
         TOP_LABELED_RADIOBUTTON | TOP_LABELED_CHECKBOX | TOP_LABELED_INPUT =>
      NotFormBoxThird(w);
    case LIST | TABLE | TEXTAREA | TREE_VIEW |
         MENU_ITEM | LABEL | BUTTON =>
      NotFormBoxFourth(w);
    case SCROLL_BAR_BUTTON | CHECKBOX | RADIOBUTTON | LINE_EDIT |
         CHECKABLE_LINE_EDIT | COMBOBOX | CHECKABLE_COMBOBOX =>
      NotFormBoxFifth(w);
    case VERT_SCROLL_BAR | HOR_SCROLL_BAR | STATUS_BAR | TAB_BUTTON |
         TAB_BAR | INPUT | TEXT_ELEMENT =>
      NotFormBoxSixth(w);
  }

  lemma NotFormBoxFirst(w: WidgetName)
    requires w == WINDOW || w == GROUP_BOX || w == LABELED_LINE_EDIT ||
      w == LABELED_CHECKABLE_LINE_EDIT || w == LABELED_COMBOBOX || w == LABELED_CHECKABLE_COMBOBOX ||
      w == LABELED_RADIOBUTTON || w == LABELED_CHECKBOX
    ensures WoClassName(w) != "FormBoxContainerWidget"
  {
  }

  lemma NotFormBoxSecond(w: WidgetName)
    requires w == LABELED_INPUT || w == REVERSED_LABELED_LINE_EDIT || w == REVERSED_LABELED_CHECKABLE_LINE_EDIT ||
      w == REVERSED_LABELED_COMBOBOX || w == REVERSED_LABELED_CHECKABLE_COMBOBOX || w == REVERSED_LABELED_RADIOBUTTON ||
      w == REVERSED_LABELED_CHECKBOX || w == REVERSED_LABELED_INPUT
    ensures WoClassName(w) != "FormBoxContainerWidget"
  {
  }

  lemma NotFormBoxThird(w: WidgetName)
    requires w == TOP_LABELED_LINE_EDIT || w == TOP_LABELED_CHECKABLE_LINE_EDIT || w == TOP_LABELED_CHECKABLE_COMBOBOX ||
      w == TOP_LABELED_COMBOBOX || w == TOP_LABELED_RADIOBUTTON || w == TOP_LABELED_CHECKBOX ||
      w == TOP_LABELED_INPUT
    ensures WoClassName(w) != "FormBoxContainerWidget"
  {
  }

  lemma NotFormBoxFourth(w: WidgetName)
    requires w == LIST || w == TABLE || w == TEXTAREA ||
      w == TREE_VIEW || w == MENU_ITEM || w == LABEL ||
      w == BUTTON
    ensures WoClassName(w) != "FormBoxContainerWidget"
  {
  }

  lemma NotFormBoxFifth(w: WidgetName)
    requires w == SCROLL_BAR_BUTTON || w == CHECKBOX || w == RADIOBUTTON ||
      w == LINE_EDIT || w == CHECKABLE_LINE_EDIT || w == COMBOBOX ||
      w == CHECKABLE_COMBOBOX
    ensures WoClassName(w) != "FormBoxContainerWidget"
  {
  }

  lemma NotFormBoxSixth(w: WidgetName)
    requires w == VERT_SCROLL_BAR || w == HOR_SCROLL_BAR || w == STATUS_BAR ||
      w == TAB_BUTTON || w == TAB_BAR || w == INPUT ||
      w == TEXT_ELEMENT
    ensures WoClassName(w) != "FormBoxContainerWidget"
  {
  }

  /** `WidgetNames.__woclassname_to_enum__`, the class-level registry. */
  class Registry {
    var byClassName: map<string, WidgetName>

    constructor ()
      ensures byClassName == map[]
    {
      byClassName := map[];
    }

    /** `__link_woclassname_to_enum`: the member under its class name, replacing any earlier one. */
    method Link(w: WidgetName)
      modifies this
      ensures byClassName == old(byClassName)[WoClassName(w) := w]
    {
      byClassName := byClassName[WoClassName(w) := w];
    }

    /** The enum's construction: every member, in declaration order, links itself. */
    method DefineMembers()
      requires byClassName == map[]
      modifies this
      ensures byClassName == RegistryOf(Members())
    {
      LinkAll(Members());
    }

    /** Links the members of `ms` one after the other. */
    method LinkAll(ms: seq<WidgetName>)
      requires byClassName == map[]
      modifies this
      ensures byClassName == MapByKey(ms, WoClassName)
    {
      var k := 0;
      while k < |ms|
        invariant 0 <= k <= |ms|
        invariant byClassName == MapByKey(ms[..k], WoClassName)
      {
        Link(ms[k]);
        assert ms[..k + 1] == ms[..k] + [ms[k]];
        MapByKeyAppend(ms[..k], WoClassName, ms[k]);
        k := k + 1;
      }
      assert ms[..k] == ms;
    }

    /**
     * `get_enum_by_woclassname`: RuntimeError while nothing is registered,
     * KeyError for an unknown class name, else the registered member.
     */
    function GetEnumByWoclassname(c: string): (r: Result<WidgetName>)
      reads this
      ensures |byClassName| == 0 ==> r == Err(RuntimeError)
      ensures |byClassName| > 0 ==> (r.Ok? <==> c in byClassName)
      ensures r.Ok? ==> r.value == byClassName[c]
      ensures |byClassName| > 0 && r.Err? ==> r.error == KeyError
    {
      if |byClassName| == 0 then Err(RuntimeError)
      else if c in byClassName then Ok(byClassName[c])
      else Err(KeyError)
    }

    /** `get_description_name(c)`: the value of `get_enum_by_woclassname(c)`. */
    function GetDescriptionName(c: string): (r: Result<string>)
      reads this
      ensures r.Ok? <==> GetEnumByWoclassname(c).Ok?
      ensures r.Ok? ==> r.value == Value(GetEnumByWoclassname(c).value)
      ensures r.Err? ==> r.error == GetEnumByWoclassname(c).error
    {
      match GetEnumByWoclassname(c)
      case Ok(w) => Ok(Value(w))
      case Err(e) => Err(e)
    }
  }

  /**
   * A member's description (`min_width`, `is_container`, `accept_list`,
   * `is_central_widget_child`, `padding`): the configured one for its
   * value, or the "No_name" description.
   */
  function Description(w: WidgetName, descriptions: map<string, Config.WidgetObjectDescription>, defaultPadding: int)
    : (d: Config.WidgetObjectDescription)
    ensures Value(w) in descriptions ==> d == descriptions[Value(w)]
    ensures Value(w) !in descriptions ==> d == Config.UnknownDescription(defaultPadding)
  {
    if Value(w) in descriptions then descriptions[Value(w)] else Config.UnknownDescription(defaultPadding)
  }

  /** The first member from position `i` on whose value is `s`, if any. */
  function FindByValue(i: nat, s: string): (r: Option<WidgetName>)
    requires i <= 47
    decreases 47 - i
  {
    if i == 47 then None
    else if Value(FromOrdinal(i)) == s then Some(FromOrdinal(i))
    else FindByValue(i + 1, s)
  }

  /** A search that finds something finds a member whose value is `s`. */
  lemma {:induction false} FindByValueFound(i: nat, s: string)
    requires i <= 47 && FindByValue(i, s).Some?
    ensures Value(FindByValue(i, s).value) == s
    decreases 47 - i
  {
    if Value(FromOrdinal(i)) != s {
      FindByValueFound(i + 1, s);
    }
  }

  /** A search that finds nothing has passed every member from position `i` on. */
  lemma {:induction false} FindByValueNone(i: nat, s: string, j: nat)
    requires i <= j < 47 && FindByValue(i, s).None?
    ensures Value(FromOrdinal(j)) != s
    decreases 47 - i
  {
    if i < j {
      FindByValueNone(i + 1, s, j);
    }
  }

  /** `WidgetNames(s)`: the member whose value is `s`, or ValueError. */
  function FromValue(s: string): (r: Result<WidgetName>)
    ensures r.Err? ==> r.error == ValueError
  {
    match FindByValue(0, s)
    case Some(w) => Ok(w)
    case None => Err(ValueError)
  }

  /** `WidgetNames(s)` raises exactly when no member has the value `s`. */
  lemma FromValueFailsIffNoMember(s: string)
    ensures FromValue(s).Ok? ==> Value(FromValue(s).value) == s
    ensures FromValue(s).Err? <==> forall w :: Value(w) != s
  {
    if FromValue(s).Ok? {
      FindByValueFound(0, s);
    } else {
      forall w ensures Value(w) != s {
        assert FromOrdinal(Ordinal(w)) == w;
        FindByValueNone(0, s, Ordinal(w));
      }
    }
  }

  /** The description a member of value `s` carries: the configured one, or the "No_name" fallback. */
  function ConfiguredDescription(s: string, descriptions: map<string, Config.WidgetObjectDescription>, defaultPadding: int)
    : Config.WidgetObjectDescription
  {
    if s in descriptions then descriptions[s] else Config.UnknownDescription(defaultPadding)
  }

  /**
   * The description behind `WidgetNames(s).min_width`, `.is_central_widget_child`
   * and the other properties: ValueError when no member has the value `s`,
   * otherwise that member's description.
   */
  function DescriptionOfValue(s: string, descriptions: map<string, Config.WidgetObjectDescription>, defaultPadding: int)
    : (r: Result<Config.WidgetObjectDescription>)
    ensures r.Err? <==> FromValue(s).Err?
    ensures r.Err? ==> r.error == ValueError
    ensures r.Ok? ==> r.value == ConfiguredDescription(s, descriptions, defaultPadding)
  {
    match FromValue(s)
    case Err(e) => Err(e)
    case Ok(_) => Ok(ConfiguredDescription(s, descriptions, defaultPadding))
  }

  /** Some node's name is the value of no member, so `WidgetNames(node.name)` raises for it. */
  predicate SomeUnnamed(nodes: seq<TreeDto.NodeDto>) {
    exists i :: 0 <= i < |nodes| && FromValue(nodes[i].name).Err?
  }

  /** A list holds an unnamed node iff its first node is unnamed or the rest holds one. */
  lemma SomeUnnamedCons(nodes: seq<TreeDto.NodeDto>)
    requires nodes != []
    ensures SomeUnnamed(nodes) <==> FromValue(nodes[0].name).Err? || SomeUnnamed(nodes[1..])
  {
    assert forall i :: 1 <= i < |nodes| ==> nodes[i] == nodes[1..][i - 1];
    if SomeUnnamed(nodes[1..]) {
      var i :| 0 <= i < |nodes[1..]| && FromValue(nodes[1..][i].name).Err?;
      assert FromValue(nodes[i + 1].name).Err?;
    }
  }
}
