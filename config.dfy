/**
 * Configuration: option lists and paths read from the INI file, the
 * read-once caches of the INI file and of the widget descriptions, and the
 * widget description with its defaults. The file contents are inputs.
 */
module Config {
  import opened Wrappers
  import opened SeqUtil
  import opened PyStr

  /**
   * `get_list`: the option's text split on ',' and each piece stripped;
   * pieces keep their order and there is one more piece than commas.
   */
  function GetList(option: string): (r: seq<string>)
    ensures |r| == |Split(option, [','])| == CountChar(option, ',') + 1
    ensures forall i :: 0 <= i < |r| ==> r[i] == Strip(Split(option, [','])[i])
    ensures forall i :: 0 <= i < |r| ==> ',' !in r[i]
  {
    var parts := Split(option, [',']);
    SplitCount(option, ',');
    var r := seq(|parts|, i requires 0 <= i < |parts| => Strip(parts[i]));
    assert forall i :: 0 <= i < |r| ==> ',' !in r[i] by {
      forall i | 0 <= i < |r| ensures ',' !in r[i] {
        SplitPiecesFree(option, [','], i);
        NoCommaInStrip(parts[i]);
      }
    }
    r
  }

  /** A piece with no separator in it has none after stripping. */
  lemma NoCommaInStrip(p: string)
    requires forall k :: !OccursAt(p, [','], k)
    ensures ',' !in Strip(p)
  {
    var r := Strip(p);
    forall j | 0 <= j < |r|
      ensures r[j] != ','
    {
      var k := LeadingSpaces(p) + j;
      OccursAtChar(p, ',', k);
      assert r[j] == p[k];
    }
  }

  /** A one-character separator occurs exactly where that character stands. */
  lemma OccursAtChar(p: string, c: char, k: nat)
    requires k < |p|
    ensures OccursAt(p, [c], k) <==> p[k] == c
  {
    assert p[k..k + 1] == [p[k]];
  }

  /**
   * `Path(root) / p` for the paths the configuration holds: an absolute
   * `p` replaces the root, a relative one is appended after a separator.
   */
  function JoinPath(root: string, p: string): (r: string)
    ensures |p| > 0 && p[0] == '/' ==> r == p
    ensures (|p| == 0 || p[0] != '/') ==> r == root + "/" + p
  {
    if |p| > 0 && p[0] == '/' then p else root + "/" + p
  }

  /** `get_path`: the option's path, prefixed by the project root iff the root-prefix flag is set. */
  function GetPath(option: string, useRootPrefix: bool, projectRoot: string): (r: string)
    ensures !useRootPrefix ==> r == option
    ensures useRootPrefix ==> r == JoinPath(projectRoot, option)
  {
    if useRootPrefix then JoinPath(projectRoot, option) else option
  }

  /** The INI file, as sections of options. */
  type IniFile = map<string, map<string, string>>

  /**
   * `PyQtGuiGenConfig`: the INI file is parsed on the first `get_section`
   * only; `readCount` counts how often the file was read.
   */
  class PyQtGuiGenConfig {
    var isRead: bool
    var config: IniFile
    ghost var readCount: nat

    ghost predicate Valid()
      reads this
    {
      readCount == if isRead then 1 else 0
    }

    constructor ()
      ensures !isRead && config == map[] && readCount == 0 && Valid()
    {
      isRead := false;
      config := map[];
      readCount := 0;
    }

    /**
     * `get_section`: reads `file` unless it was read before, then looks
     * the section up (KeyError when it is missing).
     */
    method GetSection(section: string, file: IniFile) returns (r: Result<map<string, string>>)
      requires Valid()
      modifies this
      ensures Valid() && isRead && readCount <= 1
      ensures old(isRead) ==> config == old(config) && readCount == old(readCount)
      ensures !old(isRead) ==> config == file
      ensures r.Ok? <==> section in config
      ensures r.Ok? ==> r.value == config[section]
      ensures r.Err? ==> r.error == KeyError
    {
      if !isRead {
        config := file;
        isRead := true;
        readCount := readCount + 1;
      }
      if section in config {
        r := Ok(config[section]);
      } else {
        r := Err(KeyError);
      }
    }
  }

  /** A record of `tree_widgets_description.json`. */
  datatype WidgetDescriptionDto = WidgetDescriptionDto(
    name: string, container: bool, prob: real, minWidth: int, minHeight: int, solo: bool,
    acceptList: Option<seq<string>>, hasOnlyChild: bool, centralWidgetChild: bool, padding: int)

  datatype WidgetObjectDescription = WidgetObjectDescription(
    name: string, container: bool, minWidth: int, minHeight: int, acceptList: seq<string>,
    centralWidgetChild: bool, padding: int)

  /**
   * `WidgetObjectDescription(...)`: a None accept list becomes empty, and a
   * padding of -1 is replaced by the configured default padding.
   */
  function NewWidgetObjectDescription(name: string, container: bool, minWidth: int, minHeight: int,
                                      acceptList: Option<seq<string>>, centralWidgetChild: bool,
                                      padding: int, defaultPadding: int): (d: WidgetObjectDescription)
    ensures d.name == name && d.container == container
    ensures d.minWidth == minWidth && d.minHeight == minHeight && d.centralWidgetChild == centralWidgetChild
    ensures acceptList.None? ==> d.acceptList == []
    ensures acceptList.Some? ==> d.acceptList == acceptList.value
    ensures padding == -1 ==> d.padding == defaultPadding
    ensures padding != -1 ==> d.padding == padding
  {
    WidgetObjectDescription(name, container, minWidth, minHeight,
      if acceptList.None? then [] else acceptList.value, centralWidgetChild,
      if padding == -1 then defaultPadding else padding)
  }

  /** The description for an unknown name: `WidgetObjectDescription("No_name", False)`. */
  function UnknownDescription(defaultPadding: int): (d: WidgetObjectDescription)
    ensures d.name == "No_name" && !d.container && d.acceptList == [] && d.minWidth == 0 && d.minHeight == 0
    ensures !d.centralWidgetChild && d.padding == defaultPadding
  {
    NewWidgetObjectDescription("No_name", false, 0, 0, None, false, -1, defaultPadding)
  }

  function FromDto(dto: WidgetDescriptionDto, defaultPadding: int): WidgetObjectDescription {
    NewWidgetObjectDescription(dto.name, dto.container, dto.minWidth, dto.minHeight, dto.acceptList,
      dto.centralWidgetChild, dto.padding, defaultPadding)
  }

  function DescriptionName(d: WidgetObjectDescription): string {
    d.name
  }

  /**
   * `__read_descriptions_dict`: each record turned into a description and
   * keyed by name; for a name listed twice the later record wins.
   */
  function ReadDescriptions(dtos: seq<WidgetDescriptionDto>, defaultPadding: int): (m: map<string, WidgetObjectDescription>)
    ensures forall n :: n in m <==> exists i :: 0 <= i < |dtos| && dtos[i].name == n
    ensures forall i :: 0 <= i < |dtos| && (forall j :: i < j < |dtos| ==> dtos[j].name != dtos[i].name) ==>
      dtos[i].name in m && m[dtos[i].name] == FromDto(dtos[i], defaultPadding)
  {
    var ds := seq(|dtos|, i requires 0 <= i < |dtos| => FromDto(dtos[i], defaultPadding));
    var m := MapByKey(ds, DescriptionName);
    forall n ensures n in m <==> exists i :: 0 <= i < |dtos| && dtos[i].name == n {
      if exists i :: 0 <= i < |dtos| && dtos[i].name == n {
        var i :| 0 <= i < |dtos| && dtos[i].name == n;
        assert DescriptionName(ds[i]) == n;
      }
    }
    forall i | 0 <= i < |dtos| && (forall j :: i < j < |dtos| ==> dtos[j].name != dtos[i].name)
      ensures dtos[i].name in m && m[dtos[i].name] == FromDto(dtos[i], defaultPadding)
    {
      assert DescriptionName(ds[i]) == dtos[i].name;
      var last := LastIndexWithKey(ds, DescriptionName, dtos[i].name);
      assert last.Some?;
      assert last.value == i;
    }
    m
  }

  /**
   * `WidgetObjectDescrConfig`: the descriptions are read from the JSON
   * records on the first lookup only; `readCount` counts the reads.
   */
  class WidgetObjectDescrConfig {
    var isRead: bool
    var descriptions: map<string, WidgetObjectDescription>
    ghost var readCount: nat

    ghost predicate Valid()
      reads this
    {
      readCount == if isRead then 1 else 0
    }

    constructor ()
      ensures !isRead && descriptions == map[] && readCount == 0 && Valid()
    {
      isRead := false;
      descriptions := map[];
      readCount := 0;
    }

    /**
     * `get_widget_object_description`: the description stored under the
     * name, or the "No_name" description when there is none.
     */
    method GetWidgetObjectDescription(name: string, dtos: seq<WidgetDescriptionDto>, defaultPadding: int)
      returns (d: WidgetObjectDescription)
      requires Valid()
      modifies this
      ensures Valid() && isRead && readCount <= 1
      ensures old(isRead) ==> descriptions == old(descriptions) && readCount == old(readCount)
      ensures !old(isRead) ==> descriptions == ReadDescriptions(dtos, defaultPadding)
      ensures name in descriptions ==> d == descriptions[name]
      ensures name !in descriptions ==> d == UnknownDescription(defaultPadding)
    {
      if !isRead {
        descriptions := ReadDescriptions(dtos, defaultPadding);
        isRead := true;
        readCount := readCount + 1;
      }
      if name in descriptions {
        d := descriptions[name];
      } else {
        d := UnknownDescription(defaultPadding);
      }
    }
  }

  /** Whatever sequence of lookups is made, the descriptions are read once and keep their first content. */
  method LookupTwice(c: WidgetObjectDescrConfig, a: string, b: string, dtos: seq<WidgetDescriptionDto>,
                     dtos2: seq<WidgetDescriptionDto>, defaultPadding: int)
    returns (da: WidgetObjectDescription, db: WidgetObjectDescription)
    requires c.Valid() && !c.isRead
    modifies c
    ensures c.readCount == 1 && c.descriptions == ReadDescriptions(dtos, defaultPadding)
    ensures a == b ==> da == db
  {
    da := c.GetWidgetObjectDescription(a, dtos, defaultPadding);
    db := c.GetWidgetObjectDescription(b, dtos2, defaultPadding);
  }
}
