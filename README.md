# qt-gui-generator, modelled in Dafny

qt-gui-generator produces synthetic datasets of PyQt5 screenshots for training
GUI-element detectors. Each image is built in three steps. First a random tree
of widget kinds is drawn from a weighted catalogue. Then the tree is turned
into a tree of widget objects and drawn as a Qt window. Finally every widget's
bounding box, attributes and text are recorded and exported as YOLO text
files, COCO JSON and CSV tables.

This project models the logic of that pipeline that does not depend on Qt.
What Qt computes (rectangles, frame sizes, visibility) is passed in as plain
numbers and flags. Each core Python file becomes one Dafny module:

- `TreeWidgets`, `WidgetsSample`, `TreeLink` and `TreeBuild` cover
  `gui_tree_gen.py`:
  - the catalogue and its parent/child acceptance rule;
  - the constrained draw of a sample and the only-child fix-up;
  - linking the containers into one tree and hanging the leaves under it;
  - pruning empty containers, and the export to name/children records (`TreeDto`).
- `WidgetObjects` covers the widget-object tree of `wo_abc.py` and
  `wo_concrete.py`:
  - the children operations (`ContainerObject` is the container whose list changes in place);
  - the child-slot conventions and the fixed child composition of the concrete widgets;
  - the null-geometry cases and the cases that raise.
- `WidgetGeometry` covers the box arithmetic: merging, centre, padding,
  screenshot margin, the COCO and YOLO conventions, scroll-bar button
  rectangles and scroll-bar exclusion.
- `WidgetDict` covers the per-image accumulator: four dicts, an id counter,
  label/input links, and the pre-order walk that fills them.
- `ExportData` covers the acceptable names, the YOLO label and geometry
  lines, the COCO numbering and link renumbering, the CSV rows, and the
  quality tag in file names.
- `Layouts` covers the grid layout's row/column cursor and its label variant,
  and the flow layout's item list and line wrapping.
- `RandomNumbersGen` covers the grid window size and the group-box size.
- `Attributes`, `WidgetVals`, `WidgetNames`, `Config` and `CocoDto` cover the
  attribute and value holders and builders, the enum of widget kinds and its
  class-name registry, configuration parsing with its read-once caches, and
  the defaults of a COCO annotation.
- `GuiGen` covers which images are empty, the widget-type distribution of a
  run, and the pre-order build of widget objects from a tree.

Five helper modules support the rest:

- `Wrappers` holds `Option`, `Result` and the Python exceptions.
- `PyDict` is an insertion-ordered dict.
- `PyStr` holds split, strip, join, `str(n)` and path names.
- `SeqUtil` holds list facts.
- `TreeDto` holds the plain records.

Randomness is modelled as caller-supplied draws. Every `randrange`, `choices`
and `shuffle` is a number or permutation handed in, so each step is
deterministic. A finite list of draws stands in for each unbounded rejection
loop; the driver returns `None` when the list runs out.

Where the natural reading and the code differ, the model follows the code.
For example:

- `not_null` looks only at the width;
- the YOLO scroll-bar button takes its vertical centre from the width;
- `MainWindowWidget` passes the grid limits in swapped order;
- the label grid layout fails once its threshold is reached;
- unmatched label/input links keep their old ids.

## Model

| member | source | states |
|---|---|---|
| Attributes.Value | guigenerator/qt_guigen/widgets/attributes.py:5-20 | every `AttrName` member has a value below 8, and looking that value up gives the member back |
| Attributes.FromValue | guigenerator/qt_guigen/widgets/attributes.py:5-20 | `AttrName(v)` finds a member exactly for the values 0 to 7 |
| Attributes.ValueInjective | guigenerator/qt_guigen/widgets/attributes.py:6-13 | two members with the same value are the same member, so the values 0..7 are distinct |
| Attributes.StateNames | guigenerator/qt_guigen/widgets/attributes.py:6-24 | the state names are None exactly for TEXT; every other member has two different state names |
| Attributes.GetStateNameByIndex | guigenerator/qt_guigen/widgets/attributes.py:36-37 | indexing the state names, with Python's negative indices and IndexError; TEXT raises TypeError |
| Attributes.GetStateIndexByName | guigenerator/qt_guigen/widgets/attributes.py:30-34 | the scan returns the first index holding the name, succeeds iff the name is a state name, raises RuntimeError otherwise (TypeError for TEXT), and inverts `get_state_name_by_index` on every valid index |
| Attributes.StateName | guigenerator/qt_guigen/widgets/attributes.py:53-58 | the raw state when the state names are None, else the state name the state indexes, the indexing's error when it is out of range, and TypeError for a string state |
| Attributes.StateNameRoundTrip | guigenerator/qt_guigen/widgets/attributes.py:36-58 | for a two-state attribute and state 0 or 1, `state_name` succeeds and agrees with `get_state_name_by_index` |
| Attributes.AttrDict.Put | guigenerator/qt_guigen/widgets/attributes.py:124-125 | storing an attribute under its own name in the insertion-ordered dict keeps every entry keyed by its attribute's name |
| Attributes.AttrHolderBuilder.constructor | guigenerator/qt_guigen/widgets/attributes.py:72-73 | the builder starts with a new empty dict |
| Attributes.AttrHolderBuilder.HasText | guigenerator/qt_guigen/widgets/attributes.py:75-78 | stores `Attr(HAS_TEXT, state)` under HAS_TEXT, replacing an earlier one, and returns the builder itself |
| Attributes.AttrHolderBuilder.Text | guigenerator/qt_guigen/widgets/attributes.py:80-83 | stores `Attr(TEXT, state)` under TEXT and returns the builder itself |
| Attributes.AttrHolderBuilder.Iconed | guigenerator/qt_guigen/widgets/attributes.py:85-88 | stores `Attr(ICONED, state)` under ICONED and returns the builder itself |
| Attributes.AttrHolderBuilder.Checkable | guigenerator/qt_guigen/widgets/attributes.py:90-93 | stores `Attr(CHECKABLE, state)` under CHECKABLE and returns the builder itself |
| Attributes.AttrHolderBuilder.Enableable | guigenerator/qt_guigen/widgets/attributes.py:95-98 | stores `Attr(ENABLEABLE, state)` under ENABLEABLE and returns the builder itself |
| Attributes.AttrHolderBuilder.Vscrollable | guigenerator/qt_guigen/widgets/attributes.py:100-103 | stores `Attr(VSCROLABLE, state)` under VSCROLABLE and returns the builder itself |
| Attributes.AttrHolderBuilder.Hscrollable | guigenerator/qt_guigen/widgets/attributes.py:105-108 | stores `Attr(HSCROLABLE, state)` under HSCROLABLE and returns the builder itself |
| Attributes.AttrHolderBuilder.Type | guigenerator/qt_guigen/widgets/attributes.py:110-112 | stores `Attr(TYPE, state)` under TYPE but returns None, so it cannot be chained |
| Attributes.AttrHolderBuilder.Build | guigenerator/qt_guigen/widgets/attributes.py:114-115 | the new holder shares the builder's own dict object |
| Attributes.AttrHolder.constructor | guigenerator/qt_guigen/widgets/attributes.py:119-122 | the holder keeps the given dict itself; for None it gets a new empty dict |
| Attributes.AttrHolder.AddAttr | guigenerator/qt_guigen/widgets/attributes.py:124-125 | stores the attribute under its name, replacing an earlier one |
| Attributes.AttrHolder.GetAttrList | guigenerator/qt_guigen/widgets/attributes.py:127-128 | one attribute per stored name, in first-insertion order, each being the value stored under that name |
| Attributes.AttrHolder.GetAttr | guigenerator/qt_guigen/widgets/attributes.py:130-131 | succeeds iff the name is stored, then returns an attribute of that name taken from `get_attr_list`; otherwise KeyError |
| Attributes.BuildThenSet | guigenerator/qt_guigen/widgets/attributes.py:71-128 | a setter called on the builder after `build` shows through the holder, because the two share one dict |
| Attributes.ListAfterPut | guigenerator/qt_guigen/widgets/attributes.py:124-128 | storing under a present name keeps the length of `get_attr_list`; under a new name it appends the attribute; either way the attribute is listed |
| CocoDto.AttributesDict.constructor | guigenerator/dto/coco_dto.py:56 | the caller's attribute dict holds the given entries |
| CocoDto.DefaultAttributes | guigenerator/dto/coco_dto.py:61-66 | None becomes `{"occluded": False}`; a dict with "occluded" is kept as it is; a dict without it gets "occluded" = False appended as its last key |
| CocoDto.NewAnnotationDto | guigenerator/dto/coco_dto.py:53-75 | raises IndexError exactly when the area is -1 and the box has fewer than four numbers; otherwise the record is `NewAnnotation`'s, and a passed attribute dict is completed in place |
| CocoDto.NewAnnotation | guigenerator/dto/coco_dto.py:53-75 | area -1 becomes bbox[2] * bbox[3], a None segmentation becomes [], the attributes get their default, and the other fields are stored as given |
| CocoDto.DefaultsKeepGiven | guigenerator/dto/coco_dto.py:61-66 | every given attribute keeps its value, and the only key the defaults can add is "occluded", set to False |
| CocoDto.ExportedBoxDefaults | guigenerator/dto/coco_dto.py:53-75 | an exporter's record for box (x, y, w, h) has area w * h, iscrowd 0, no segmentation and exactly the attribute "occluded" = False |
| Config.GetList | guigenerator/qt_guigen/config.py:50-51 | one stripped piece per comma-separated part, in order, one more piece than commas, and no piece holds a comma |
| Config.GetPath | guigenerator/qt_guigen/config.py:44-48 | the option's path joined after the project root iff the root-prefix flag is set, else the path unchanged |
| Config.JoinPath | guigenerator/qt_guigen/config.py:47 | `Path(root) / p` keeps an absolute `p` and otherwise puts a separator between root and `p` |
| Config.PyQtGuiGenConfig.constructor | guigenerator/qt_guigen/config.py:11-12 | the configuration starts unread and empty |
| Config.PyQtGuiGenConfig.GetSection | guigenerator/qt_guigen/config.py:14-23 | the file is read on the first call only and then kept; the result is the section, or KeyError when it is missing |
| Config.NewWidgetObjectDescription | guigenerator/qt_guigen/config.py:86-99 | a None accept list becomes [], a padding of -1 becomes the configured default, and every other field is stored as given |
| Config.UnknownDescription | guigenerator/qt_guigen/config.py:67 | the fallback description is named "No_name", is not a container, accepts nothing, has zero minimum size and the default padding |
| Config.ReadDescriptions | guigenerator/qt_guigen/config.py:74-83 | a name is a key iff some record has it, and a name gets the description of its last record |
| Config.WidgetObjectDescrConfig.constructor | guigenerator/qt_guigen/config.py:56-57 | the description cache starts unread and empty |
| Config.WidgetObjectDescrConfig.GetWidgetObjectDescription | guigenerator/qt_guigen/config.py:59-72 | the descriptions are read on the first call only; the result is the stored description, or the "No_name" fallback for an unknown name |
| Config.LookupTwice | guigenerator/qt_guigen/config.py:59-72 | over two lookups the descriptions are read once and keep the first content, so the same name gives the same description |
| ExportData.Acceptable | guigenerator/qt_guigen/export_data.py:47-50 | a name is kept iff it is possible and not excepted; the kept names are a subsequence of the possible ones, so order is kept, and they are distinct when those are |
| ExportData.AcceptableGeometryNames | guigenerator/qt_guigen/export_data.py:47-50 | a name is acceptable iff it is the value of some widget name and not in the except list, listed in declaration order |
| ExportData.IndexMap | guigenerator/qt_guigen/export_data.py:58-65 | every listed name, and nothing else, maps to a position (plus the offset) that holds it |
| ExportData.IndexMapLast | guigenerator/qt_guigen/export_data.py:61-63 | a name listed twice keeps its last position: no later position holds it |
| ExportData.IndexMapOfDistinct | guigenerator/qt_guigen/export_data.py:58-65 | with distinct names, each maps to its own 0-based position plus the offset |
| ExportData.EnumerateIntoDict | guigenerator/qt_guigen/export_data.py:60-63 | the `enumerate` loop builds exactly the index map |
| ExportData.NameIndexCache.constructor | guigenerator/qt_guigen/export_data.py:32 | the class-level cache starts as None |
| ExportData.NameIndexCache.GetWidgetNameToIndexDict | guigenerator/qt_guigen/export_data.py:57-65 | the first call builds the 0-based index map of the acceptable names and caches it; later calls return the cached map unchanged |
| ExportData.LabelTextLines | guigenerator/qt_guigen/export_data.py:123-125 | splitting the label text on newlines gives back the acceptable names, then one empty piece after the final newline |
| ExportData.SplitJoinChar | guigenerator/qt_guigen/export_data.py:123-125 | joining pieces that do not contain a one-character separator and splitting on it gives the pieces back |
| ExportData.CreateGeometryTextForAllWidgetsOfThisName | guigenerator/qt_guigen/export_data.py:110-121 | a name without an index gives no lines; a name with one gives one line `"{index} {geometry}\n"` per geometry, in order |
| ExportData.AllLinesCount | guigenerator/qt_guigen/export_data.py:101-108 | an image has one YOLO line per geometry of each name that has an index |
| ExportData.GetGeometryText | guigenerator/qt_guigen/export_data.py:101-108 | the image's text is every group's lines, in the order of the name groups passed in, concatenated |
| ExportData.CollectLines | guigenerator/qt_guigen/export_data.py:103-107 | the loop gathers the lines of every name group in the order the groups are passed in |
| ExportData.Categories | guigenerator/qt_guigen/export_data.py:142-147 | category i is `CategoryDto(i + 1, name i)`: ids are the 1-based positions of the acceptable names |
| ExportData.FirstLink | guigenerator/qt_guigen/export_data.py:173-187 | the first original link holding the id, if any: no earlier link holds it, and None means no link does |
| ExportData.FindFirstLink | guigenerator/qt_guigen/export_data.py:173-187 | the loop with `break` finds exactly the first link holding the id |
| ExportData.Renumber | guigenerator/qt_guigen/export_data.py:173-187 | in the copy, only the first link that holds the id among the originals changes: its label id (for "Label") or else its input id becomes the annotation id; every other link keeps its ids |
| ExportData.UpdateAttrs | guigenerator/qt_guigen/export_data.py:195-199 | the updated attributes are again a well-formed insertion-ordered dict (what they hold is `UpdateAttrsMeaning`) |
| ExportData.UpdateAttrsMeaning | guigenerator/qt_guigen/export_data.py:195-199 | the update raises iff some attribute's state name is missing, with the first such attribute's error; otherwise every key already present stays, each attribute's fancy name holds the state name of the last attribute of that name, every other key keeps its value, and no other key appears |
| ExportData.ExportItemsNumbering | guigenerator/qt_guigen/export_data.py:165-201 | within an image, the earlier annotations stay, one annotation per acceptable entry follows in order with consecutive ids from the current one, skipped entries use no id, and the number of links stays the same |
| ExportData.ExportItemAnnotates | guigenerator/qt_guigen/export_data.py:189-201 | an acceptable entry appends one annotation under the current id: the image id, its name's category, its box, area width * height, `iscrowd` 0, no segmentation, and the attributes `{"occluded": False}`, updated with its own attributes when its name is in the attribute export list |
| ExportData.UnmatchedLinksKept | guigenerator/qt_guigen/export_data.py:173-187 | a link that no acceptable entry's id reaches first keeps its old ids |
| ExportData.LinkDtos | guigenerator/qt_guigen/export_data.py:206-210 | one `LabelInputDto(image id, label id, input id)` per renumbered link, in order |
| ExportData.ExportImagesNumbered | guigenerator/qt_guigen/export_data.py:149-210 | over all images, images are numbered 1, 2, ... and annotation ids 1, 2, ... continue across images |
| ExportData.ExportImageNumbered | guigenerator/qt_guigen/export_data.py:153-210 | one image keeps that numbering: its id is the next one and its annotations continue the ids |
| ExportData.ExportOneItem | guigenerator/qt_guigen/export_data.py:172-201 | the body of the entry loop (renumber, add the annotation, advance the id) computes one export step |
| ExportData.ExportImageItems | guigenerator/qt_guigen/export_data.py:165-204 | the loop over an image's entries, on a copy of its links, computes the image's export |
| ExportData.CocoExport | guigenerator/qt_guigen/export_data.py:137-210 | the categories come from the acceptable names; the images are exported from id 1 with annotation ids from 1, numbered as above, one image record per image |
| ExportData.CropNamesDistinct | guigenerator/qt_guigen/export_data.py:268-273 | different widget ids of one name and screenshot give different crop names |
| ExportData.AttrRow | guigenerator/qt_guigen/export_data.py:274-276 | the row is the crop name followed by each attribute's state name; it raises iff some state name is missing, with the first such attribute's error |
| ExportData.AttrRowsEach | guigenerator/qt_guigen/export_data.py:266-276 | a name's rows exist iff every widget's row does, and then there is one row per widget id, in order |
| ExportData.CsvAttrRows | guigenerator/qt_guigen/export_data.py:260-276 | no rows for a name that is not exported, otherwise the name's attribute rows |
| ExportData.ContentRows | guigenerator/qt_guigen/export_data.py:338-341 | one row `[crop name, str(value)]` per stored value, in the key order of the widget's value dict |
| ExportData.AppendContentRows | guigenerator/qt_guigen/export_data.py:338-341 | the inner loop appends exactly a widget's content rows |
| ExportData.CsvContentRows | guigenerator/qt_guigen/export_data.py:322-341 | no rows for a name that is not exported, otherwise every widget's content rows, in the order the widgets are passed in |
| ExportData.AddQualityToFilename | guigenerator/qt_guigen/export_data.py:72-77 | without "-q" the name is returned unchanged; with one, the text before the first "-q" followed by the suffix of the second piece |
| ExportData.QualityDropped | guigenerator/qt_guigen/export_data.py:72-77 | with a "-q", the result starts with the part before it, which holds no "-q", followed by nothing or by a dot and no further dot |
| GuiGen.Trunc | guigenerator/qt_guigen/guigen/guigen.py:204-205 | Python's `int` on a real truncates toward zero: the result is within one of the value, on the zero side |
| GuiGen.NmbOfEmptyWidgets | guigenerator/qt_guigen/guigen/guigen.py:203-205 | with a ratio between 0 and 1, the number of empty images lies between 0 and the dataset size |
| GuiGen.EmptyFlags | guigenerator/qt_guigen/guigen/guigen.py:65-69 | image k's flag is `item_num >= DATASET_SIZE - get_nmb_of_empty_widgets()` |
| GuiGen.CountEmptyFlags | guigenerator/qt_guigen/guigen/guigen.py:65-69 | among the first n images, the empty ones are those at or past the cut |
| GuiGen.EmptyImagesAreTheLast | guigenerator/qt_guigen/guigen/guigen.py:65-69 | with a ratio between 0 and 1, exactly `int(size * ratio)` images are drawn empty, and image k is empty iff it is one of the last that many |
| GuiGen.Counters | guigenerator/qt_guigen/guigen/guigen.py:65-105 | one counter per image of the run |
| GuiGen.Generate | guigenerator/qt_guigen/guigen/guigen.py:65-105 | image k contributes an empty counter when it is drawn empty, else the distribution of a tree of the one size drawn for the whole run |
| GuiGen.SumValuesSet | guigenerator/qt_guigen/guigen/guigen.py:139-141 | assigning v to a key changes the sum of the values by v less what the key held |
| GuiGen.SumValuesPop | guigenerator/qt_guigen/guigen/guigen.py:155-161 | popping a key takes what it held off the sum of the values |
| GuiGen.TallyStep | guigenerator/qt_guigen/guigen/guigen.py:135-142 | one pass of the inner loop keeps the running dict a valid dict |
| GuiGen.TallyStepCount | guigenerator/qt_guigen/guigen/guigen.py:135-142 | the pass adds the name's count to that name only, and nothing when the name is excepted |
| GuiGen.TallyStepSum | guigenerator/qt_guigen/guigen/guigen.py:135-142 | `total` grows by exactly what the dict's values grow by |
| GuiGen.TallyStepKeys | guigenerator/qt_guigen/guigen/guigen.py:135-142 | the pass creates no key other than the name, and none for an excepted name |
| GuiGen.TallyNames | guigenerator/qt_guigen/guigen/guigen.py:135-142 | the inner loop over one counter keeps the running dict valid |
| GuiGen.TallyAll | guigenerator/qt_guigen/guigen/guigen.py:134-142 | the outer loop over the run keeps the running dict valid |
| GuiGen.TallyNamesCount | guigenerator/qt_guigen/guigen/guigen.py:135-142 | over one counter, a name gains its count iff it is a key of the counter and not excepted |
| GuiGen.TallyAllCount | guigenerator/qt_guigen/guigen/guigen.py:134-142 | over the run, a name not in the except list is summed over all counters, and an excepted name gains nothing |
| GuiGen.TallyNamesSum | guigenerator/qt_guigen/guigen/guigen.py:135-142 | over one counter, `total` stays the sum of the running dict's values less what it started from |
| GuiGen.TallyAllSum | guigenerator/qt_guigen/guigen/guigen.py:134-142 | over the run, `total` grows by exactly what the dict's values grow by, so starting from empty it is their sum |
| GuiGen.TallyNamesKeys | guigenerator/qt_guigen/guigen/guigen.py:135-142 | a name that is not a key of the counter, or is excepted, does not become a key |
| GuiGen.TallyAllKeys | guigenerator/qt_guigen/guigen/guigen.py:134-142 | a name that no counter has, or that is excepted, never becomes a key |
| GuiGen.TallyAllEmptyTail | guigenerator/qt_guigen/guigen/guigen.py:134-142 | empty counters at the end of the run change nothing |
| GuiGen.SetDefault | guigenerator/qt_guigen/guigen/guigen.py:143-152 | `d[k] = 0` when k is missing: k becomes a key, every count and the sum are unchanged, and no other key is added |
| GuiGen.WithDefaults | guigenerator/qt_guigen/guigen/guigen.py:143-152 | after the five defaults, Button, HorScrollBar, VertScrollBar, ScrollBarButton and MenuItem are keys; every count, every other key and the sum are unchanged |
| GuiGen.SetPop | guigenerator/qt_guigen/guigen/guigen.py:153-161 | an assignment then a pop: the popped key is gone, the assigned one holds its value, other keys are untouched, and the sum changes accordingly |
| GuiGen.SumInto | guigenerator/qt_guigen/guigen/guigen.py:153-156 | ScrollBar = Hor + Vert with both popped: the two keys are gone, ScrollBar holds their sum, others are untouched, and the sum loses only what ScrollBar held before |
| GuiGen.AddInto | guigenerator/qt_guigen/guigen/guigen.py:158-161 | Button += ScrollBarButton, += MenuItem, both popped: the two keys are gone, Button holds all three counts, others are untouched, and the sum is unchanged |
| GuiGen.MergedDropsMergedKeys | guigenerator/qt_guigen/guigen/guigen.py:153-161 | after the merge HorScrollBar, VertScrollBar, ScrollBarButton and MenuItem are gone |
| GuiGen.MergedScrollBar | guigenerator/qt_guigen/guigen/guigen.py:153-156 | after the merge ScrollBar holds the horizontal plus the vertical scroll bars |
| GuiGen.MergedButton | guigenerator/qt_guigen/guigen/guigen.py:158-161 | after the merge Button holds the buttons, the scroll bar buttons and the menu items |
| GuiGen.MergedOther | guigenerator/qt_guigen/guigen/guigen.py:143-161 | every key the merge does not touch keeps its presence and its count |
| GuiGen.MergedSum | guigenerator/qt_guigen/guigen/guigen.py:143-161 | the merge keeps the sum of the values, except that a ScrollBar count already present is overwritten and drops out |
| GuiGen.DistributionCount | guigenerator/qt_guigen/guigen/guigen.py:130-161 | a widget type other than the merged ones is plotted with its count summed over the run, and an excepted one with 0 |
| GuiGen.DistributionButtons | guigenerator/qt_guigen/guigen/guigen.py:130-161 | the plotted Button count is the run's buttons, scroll bar buttons and menu items, less the excepted ones |
| GuiGen.DistributionAddsUp | guigenerator/qt_guigen/guigen/guigen.py:130-168 | when no widget is named ScrollBar, the plotted counts add up to `total` |
| GuiGen.EmptyImagesCountNothing | guigenerator/qt_guigen/guigen/guigen.py:65-105 | the images before the cut are rendered, and the empty images at the end add nothing to the distribution |
| GuiGen.TallyCounter | guigenerator/qt_guigen/guigen/guigen.py:135-142 | the loop over one counter's items, in the dict's order, computes the inner tally |
| GuiGen.TallyNamesStep | guigenerator/qt_guigen/guigen/guigen.py:135-142 | one pass followed by the rest of the names is the tally from that name on |
| GuiGen.TallyKey | guigenerator/qt_guigen/guigen/guigen.py:136-142 | the body of the inner loop computes one tally step |
| GuiGen.AddCount | guigenerator/qt_guigen/guigen/guigen.py:139-141 | a new name is created at 0 and then increased by the count |
| GuiGen.PrintWidgetsDistribution | guigenerator/qt_guigen/guigen/guigen.py:130-168 | the labels and counts plotted are the merged distribution's keys and values in the dict's order, or none when `total` is 0 |
| GuiGen.Items | guigenerator/qt_guigen/guigen/guigen.py:165-168 | the loop collects every key and its value, in the dict's order |
| GuiGen.BuiltAllGrows | guigenerator/qt_guigen/guigen/guigen.py:229-247 | the build keeps the parent and its children and appends one child per tree node, in order, each named after its node and grown from it the same way; the menu item counter goes up by the menu items built |
| GuiGen.NewWidgetObject | guigenerator/qt_guigen/guigen/guigen.py:239-247 | the factory makes the object for the node's name; only a menu item takes an id from the counter, which then goes up by one |
| GuiGen.CreateChildren | guigenerator/qt_guigen/guigen/guigen.py:229-247 | the recursive build is pre-order: each child is attached before its subtree is built, it fails with AttributeError when a parent is not a container, and otherwise computes the built tree and the counter |
| GuiGen.CreateGuiFromTree | guigenerator/qt_guigen/guigen/guigen.py:218-227 | the root is made, the menu item counter is reset to 0, and the children are built under the root, so menu items are numbered from 0 and the counter ends at their number |
| Layouts.LeftToRight | guigenerator/qt_guigen/widgets/widgetobject/layouts.py:153-157 | the column moves right, wrapping to column 0 of the next row when it reaches max_col |
| Layouts.TopToBottom | guigenerator/qt_guigen/widgets/widgetobject/layouts.py:163-167 | the row moves down, wrapping to row 0 of the next column when it reaches max_row |
| Layouts.GridCursorClosedForm | guigenerator/qt_guigen/widgets/widgetobject/layouts.py:143-171 | with positive dimensions the grid never fails; child k below the threshold max_col * max_row sits at row k div max_col, column k mod max_col, and past it column-major in max_row rows from column max_col + 1 |
| Layouts.GridSkipsColumn | guigenerator/qt_guigen/widgets/widgetobject/layouts.py:150-151 | the jump at the threshold to column max_col + 1 means no child is ever placed in column max_col |
| Layouts.LabelGridFailsPastThreshold | guigenerator/qt_guigen/widgets/widgetobject/layouts.py:183-192 | the label grid's cursor exists iff no more than max_col * max_row children were added: the next add fails with AttributeError |
| Layouts.CountGridChildren | guigenerator/qt_guigen/widgets/widgetobject/layouts.py:125-132 | ValueError exactly when some root child's name is no member's value; otherwise the count lies between 0 and the number of root children, is all of them iff every one is a central-widget child, and 0 iff none is |
| Layouts.CountGridChildrenOf | guigenerator/qt_guigen/widgets/widgetobject/layouts.py:125-132 | the loop raises ValueError at the first child of unknown name and otherwise counts the central-widget children, as `CountGridChildren` does |
| Layouts.GridLayoutObject.constructor | guigenerator/qt_guigen/widgets/widgetobject/layouts.py:112-119 | the grid starts at (0, 0) with nothing added, holding its settings and the number of central-widget children it is given |
| Layouts.NewGridLayoutObject | guigenerator/qt_guigen/widgets/widgetobject/layouts.py:112-132 | ValueError exactly when some root child's name is no member's value; otherwise a fresh grid at (0, 0) with nothing added and the central-widget children counted |
| Layouts.GridLayoutObject.AddChild | guigenerator/qt_guigen/widgets/widgetobject/layouts.py:135-192 | the widget is placed at the current cell and counted, spanning the rest exactly when it is the last counted child; the cursor then follows the fill order, and when the label grid raises AttributeError past its threshold the widget stays placed and the cursor stays where it was |
| Layouts.MainWindowGrid | guigenerator/qt_guigen/widgets/widgetobject/wo_concrete.py:47-49 | the main window passes (max_row, max_col) where the grid expects (max_col, max_row), so the two settings swap roles; ValueError for a root child of unknown name |
| Layouts.AtMostOneSpans | guigenerator/qt_guigen/widgets/widgetobject/layouts.py:135-141 | at most one placed widget spans the rest of the grid |
| Layouts.ItemPos | guigenerator/qt_guigen/widgets/widgetobject/layouts.py:84-89 | an item stays where the line is, or goes to the left edge one line height plus vertical spacing lower on a fresh line |
| Layouts.Positions | guigenerator/qt_guigen/widgets/widgetobject/layouts.py:72-95 | one position per item |
| Layouts.FlowStepAt | guigenerator/qt_guigen/widgets/widgetobject/layouts.py:72-95 | the placement of the items from the k-th on is the k-th item's position, then the rest placed from the state after it |
| Layouts.Geometries | guigenerator/qt_guigen/widgets/widgetobject/layouts.py:91-92 | one geometry per item |
| Layouts.GeometriesStep | guigenerator/qt_guigen/widgets/widgetobject/layouts.py:91-92 | placing the k-th item at its position extends the geometries of the first k items to the first k + 1 |
| Layouts.FlowItemsFit | guigenerator/qt_guigen/widgets/widgetobject/layouts.py:84-89 | with positive item heights, every item starts at the left edge or ends within the rectangle's right edge |
| Layouts.FlowRowsDescend | guigenerator/qt_guigen/widgets/widgetobject/layouts.py:84-95 | with non-negative heights and spacings, no item is placed above the starting line, and the final line height stays non-negative |
| Layouts.FlowLayout.constructor | guigenerator/qt_guigen/widgets/widgetobject/layouts.py:15 | the layout starts with no items |
| Layouts.FlowLayout.AddItem | guigenerator/qt_guigen/widgets/widgetobject/layouts.py:22-23 | `addItem` appends |
| Layouts.FlowLayout.Count | guigenerator/qt_guigen/widgets/widgetobject/layouts.py:25-26 | `count` is the number of items |
| Layouts.FlowLayout.ItemAt | guigenerator/qt_guigen/widgets/widgetobject/layouts.py:28-32 | `itemAt` returns the item iff the index is in range, else None |
| Layouts.FlowLayout.TakeAt | guigenerator/qt_guigen/widgets/widgetobject/layouts.py:34-38 | `takeAt` removes and returns the item at an index in range; otherwise it returns None and leaves the list alone |
| Layouts.FlowLayout.TakeAll | guigenerator/qt_guigen/widgets/widgetobject/layouts.py:17-20 | `__del__` takes every item, in order, until the list is empty |
| Layouts.FlowLayout.DoLayout | guigenerator/qt_guigen/widgets/widgetobject/layouts.py:66-97 | the loop returns the height used from rect.y to the bottom of the last line, and sets each item's geometry to its position and size hint unless only testing |
| Layouts.FlowLayout.HeightForWidth | guigenerator/qt_guigen/widgets/widgetobject/layouts.py:46-48 | the height is that of a test layout in a rectangle of the given width at the origin |
| RandomNumbersGen.GroupBoxSize | guigenerator/qt_guigen/widgets/random_values_generation/random_numbers_gen.py:68-78 | a group box with no children is (0, 0); its height is at least every child's minimum height and is one of them (or 0) |
| RandomNumbersGen.GroupBoxWidthIsSum | guigenerator/qt_guigen/widgets/random_values_generation/random_numbers_gen.py:72-75 | a group box's width is the sum of its children's minimum widths |
| RandomNumbersGen.MinSizeKnown | guigenerator/qt_guigen/widgets/widget_names.py:122-128 | `WidgetNames(name)` raises exactly for a name that is no member's value; otherwise its `min_width` and `min_height` are the configured minimum size of that name |
| RandomNumbersGen.Beside | guigenerator/qt_guigen/widgets/random_values_generation/random_numbers_gen.py:75-76 | placing two boxes side by side adds their widths and takes the larger height |
| RandomNumbersGen.GroupBoxSizeAppend | guigenerator/qt_guigen/widgets/random_values_generation/random_numbers_gen.py:72-76 | the box of two runs of children is the two runs' boxes side by side |
| RandomNumbersGen.GroupBoxFromSpec | guigenerator/qt_guigen/widgets/random_values_generation/random_numbers_gen.py:72-76 | the loop from child i on raises ValueError exactly when some child from i on has a name that is no member's value, and otherwise gives the size so far beside the box of the remaining children |
| RandomNumbersGen.GenerateGroupboxSizeValues | guigenerator/qt_guigen/widgets/random_values_generation/random_numbers_gen.py:68-78 | ValueError exactly when some child's name is no member's value; otherwise the group box size of the node's children |
| RandomNumbersGen.ChildSizeAsWritten | guigenerator/qt_guigen/widgets/random_values_generation/random_numbers_gen.py:25-30 | as written, `child.name == WidgetNames.GROUP_BOX` compares a string with an enum member and is never true, so every child gets its kind's minimum size |
| RandomNumbersGen.ChildSize | guigenerator/qt_guigen/widgets/random_values_generation/random_numbers_gen.py:25-30 | as intended, a group box is as wide as its children's minimum widths together; every other child has its kind's minimum size |
| RandomNumbersGen.GroupBoxSizeIgnored | guigenerator/qt_guigen/widgets/random_values_generation/random_numbers_gen.py:25-30 | a group box holding one wide label gets its own minimum size as written, and its label's size as intended |
| RandomNumbersGen.MaxOf | guigenerator/qt_guigen/widgets/random_values_generation/random_numbers_gen.py:35-36 | Python's `max` of a non-empty list is at least every element and is one of them |
| RandomNumbersGen.GridChildren | guigenerator/qt_guigen/widgets/random_values_generation/random_numbers_gen.py:15-17 | ValueError exactly when some root child's name is no member's value; otherwise the grid children are exactly the root's children that are central-widget children |
| RandomNumbersGen.GridSize | guigenerator/qt_guigen/widgets/random_values_generation/random_numbers_gen.py:11-66 | fails exactly for a side of 0 or less (ValueError from `max` of an empty list; IndexError for a negative side with children), and is otherwise bounded by (max_w, max_h) |
| RandomNumbersGen.GridSizeHoldsEachChild | guigenerator/qt_guigen/widgets/random_values_generation/random_numbers_gen.py:11-66 | with non-negative sizes, every grid child fits: its width and height are within the result or the cap is reached |
| RandomNumbersGen.FirstGridHolds | guigenerator/qt_guigen/widgets/random_values_generation/random_numbers_gen.py:20-36 | the widest row and highest column of the square hold each of its children |
| RandomNumbersGen.SecondGridHolds | guigenerator/qt_guigen/widgets/random_values_generation/random_numbers_gen.py:38-59 | the widest row and highest column of the extra columns hold each extra child |
| RandomNumbersGen.SecondGridHoldsWidth | guigenerator/qt_guigen/widgets/random_values_generation/random_numbers_gen.py:55-58 | the widest row of the extra columns is at least each extra child's width |
| RandomNumbersGen.SecondGridHoldsHeight | guigenerator/qt_guigen/widgets/random_values_generation/random_numbers_gen.py:56-59 | the highest extra column is at least each extra child's height |
| RandomNumbersGen.BucketHoldsByDiv | guigenerator/qt_guigen/widgets/random_values_generation/random_numbers_gen.py:32-36 | the largest sum over the buckets by quotient is at least each value it covers |
| RandomNumbersGen.BucketHoldsByMod | guigenerator/qt_guigen/widgets/random_values_generation/random_numbers_gen.py:33-36 | the largest sum over the buckets by remainder is at least each value it covers |
| RandomNumbersGen.DivBound | guigenerator/qt_guigen/widgets/random_values_generation/random_numbers_gen.py:24-32 | a child of the square has row index `i div side` within the side, so the update is in range |
| RandomNumbersGen.CeilDivBound | guigenerator/qt_guigen/widgets/random_values_generation/random_numbers_gen.py:44-56 | an extra child's column index `(i - side^2) div side` is below the number of extra columns, so the update is in range |
| RandomNumbersGen.FirstGridSums | guigenerator/qt_guigen/widgets/random_values_generation/random_numbers_gen.py:22-33 | after the loop, row r holds the widths of the children with `i div side == r` and column c the heights of those with `i mod side == c` |
| RandomNumbersGen.SecondGridSums | guigenerator/qt_guigen/widgets/random_values_generation/random_numbers_gen.py:44-56 | after the loop, row r holds the widths of the extra children with `(i - side^2) mod side == r` and column c the heights of those with `(i - side^2) div side == c` |
| RandomNumbersGen.FirstGridSize | guigenerator/qt_guigen/widgets/random_values_generation/random_numbers_gen.py:20-36 | the first loop and the maxima after it give the square's size |
| RandomNumbersGen.SecondGridSize | guigenerator/qt_guigen/widgets/random_values_generation/random_numbers_gen.py:38-59 | the second loop and the maxima after it give the extra columns' size, (0, 0) without extra children |
| RandomNumbersGen.GenerateWidgetSizeValuesForGrid | guigenerator/qt_guigen/widgets/random_values_generation/random_numbers_gen.py:11-66 | ValueError when some child's name is no member's value; otherwise the grid size of the central-widget children's sizes, in order, with `size` sizing each child |
| TreeWidgets.NewTreeWidgetDescription | guigenerator/tree_guigen/gui_tree_gen.py:71-82 | the descriptor keeps every argument, and a missing accept list becomes the empty list |
| TreeWidgets.GetNodeAndChildren | guigenerator/tree_guigen/gui_tree_gen.py:304-312 | the listing starts with the node itself and is its pre-order |
| TreeWidgets.Dfs | guigenerator/tree_guigen/gui_tree_gen.py:305-308 | the inner walk appends the node's pre-order to the list it is given |
| TreeWidgets.ContainerWidgets | guigenerator/tree_guigen/gui_tree_gen.py:384-387 | exactly the container entries are kept, and the first one kept is the first container of the catalogue |
| TreeWidgets.OrdinaryWidgets | guigenerator/tree_guigen/gui_tree_gen.py:372-375 | exactly the non-container entries are kept |
| TreeWidgets.GetFirstContainerWidget | guigenerator/tree_guigen/gui_tree_gen.py:396-399 | returns the first container entry; IndexError exactly when the catalogue has no container |
| TreeWidgets.GetFirstNode | guigenerator/tree_guigen/gui_tree_gen.py:401-403 | returns the first node; IndexError exactly for an empty list |
| TreeWidgets.ContainerWidgetsAsNodes | guigenerator/tree_guigen/gui_tree_gen.py:389-394 | one childless node per container entry, in sample order, each carrying its entry and its position |
| TreeWidgets.OrdinaryWidgetsAsNodes | guigenerator/tree_guigen/gui_tree_gen.py:377-382 | one childless node per non-container entry, in sample order, each carrying its entry and its position |
| TreeWidgets.NodesFromComplete | guigenerator/tree_guigen/gui_tree_gen.py:377-394 | no matching entry is skipped: each gets a node |
| WidgetsSample.GenerateWidgetNode | guigenerator/tree_guigen/gui_tree_gen.py:337-351 | the drawn entry is appended and its accept list added to the accepted names exactly when its name is accepted and the solo rule allows it; the sample stays well formed |
| WidgetsSample.AppendKeepsWellSampled | guigenerator/tree_guigen/gui_tree_gen.py:343-346 | appending an accepted entry that the solo rule allows keeps every entry accepted by an earlier one and every solo entry single |
| WidgetsSample.DrawSample | guigenerator/tree_guigen/gui_tree_gen.py:324-331 | the sample starts with the root, stays well formed and stops at the requested size (just the root when at most one widget is asked for) |
| WidgetsSample.RemoveFirstNamedIsPop | guigenerator/tree_guigen/gui_tree_gen.py:365-367 | `names.index` then `pop` on both lists drops the first entry with that name |
| WidgetsSample.RemoveFirstNamedCounts | guigenerator/tree_guigen/gui_tree_gen.py:364-368 | dropping it lowers that name's count by one, leaves every other count and keeps the order of the rest |
| WidgetsSample.FixPairBalances | guigenerator/tree_guigen/gui_tree_gen.py:361-368 | after a pair's round the child name occurs no more often than the parent name, exactly as often if it occurred more, and nothing else changes |
| WidgetsSample.FixAllSubseq | guigenerator/tree_guigen/gui_tree_gen.py:354-368 | the fix-up only drops entries and keeps the order of those it keeps |
| WidgetsSample.FixAllKeepsOthers | guigenerator/tree_guigen/gui_tree_gen.py:354-368 | a name that is no pair's child name keeps all its entries |
| WidgetsSample.FixPairLoop | guigenerator/tree_guigen/gui_tree_gen.py:362-368 | the inner loop drops the first child-named entries from both lists until the counts balance, keeping the names list in step with the sample |
| WidgetsSample.FixOnlyChildWidgetsNumberRatio | guigenerator/tree_guigen/gui_tree_gen.py:353-368 | IndexError exactly when a has-only-child entry has an empty accept list; otherwise the rounds over all pairs, as an order-keeping sub-list |
| WidgetsSample.CreateSample | guigenerator/tree_guigen/gui_tree_gen.py:320-335 | a well-formed sample of the requested size starting with the root, then fixed up pair by pair |
| TreeLink.AppendTreeIds | guigenerator/tree_guigen/gui_tree_gen.py:193 | appending a child under a node whose id occurs once adds exactly the child's ids to the tree, and nothing when the id is absent |
| TreeLink.RemoveRootIdIds | guigenerator/tree_guigen/gui_tree_gen.py:196 | `list.remove` of a node drops its first entry: that tree's ids leave the list and the list is one shorter |
| TreeLink.MoveAllKeeps | guigenerator/tree_guigen/gui_tree_gen.py:198-205 | moving the only-parent nodes under the child keeps every id of the list when none of them contains the child |
| TreeLink.OnlyParentNodes | guigenerator/tree_guigen/gui_tree_gen.py:207-228 | every node returned is a list entry whose name the entry at the index accepts and which is no other entry's direct child, in list order |
| TreeLink.OnlyParentKeeps | guigenerator/tree_guigen/gui_tree_gen.py:219-228 | the filter keeps exactly the candidates that are no other entry's direct child, in their order |
| TreeLink.GetContainerNodesHavingGivenAsOnlyParent | guigenerator/tree_guigen/gui_tree_gen.py:207-228 | the helper's nested loops compute that list |
| TreeLink.KeepOnlyParent | guigenerator/tree_guigen/gui_tree_gen.py:219-227 | the outer loop appends exactly the candidates the inner search clears |
| TreeLink.IsChildOfOther | guigenerator/tree_guigen/gui_tree_gen.py:220-225 | the inner loop, stopping at the first hit, reports whether the candidate is a direct child of an entry other than the one at the index |
| TreeLink.LinkOnlyChildren | guigenerator/tree_guigen/gui_tree_gen.py:198-205 | each only-parent node in turn is appended under the node and removed from the list |
| TreeLink.LinkTwoContainerNodes | guigenerator/tree_guigen/gui_tree_gen.py:184-196 | with different indices and a parent that can take the child, the child is appended, its only-children are moved under it and its entry is removed; otherwise the list is unchanged |
| TreeLink.LinkTwoFixedKeeps | guigenerator/tree_guigen/gui_tree_gen.py:184-205 | the corrected step keeps every id of the forest, keeps ids unique, shortens the list whenever it links and otherwise changes nothing |
| TreeLink.LinkTwoAgrees | guigenerator/tree_guigen/gui_tree_gen.py:213-216 | when the child does not accept its parent by name, the step as written and the corrected step agree |
| TreeLink.LinkTwoLosesNodes | guigenerator/tree_guigen/gui_tree_gen.py:184-228 | two containers accepting each other: the step as written leaves an empty list, losing both nodes; the corrected step hangs one under the other |
| TreeLink.Potential | guigenerator/tree_guigen/gui_tree_gen.py:213-216 | the candidates are the list entries whose name is accepted, as an order-keeping sub-list |
| TreeLink.Attach | guigenerator/tree_guigen/gui_tree_gen.py:192-193 | appending the child under the parent keeps the length of the list and the id of every entry |
| TreeLink.RemoveRootId | guigenerator/tree_guigen/gui_tree_gen.py:196 | `list.remove` never lengthens the list and keeps only entries that were there |
| TreeBuild.PreorderIds | guigenerator/tree_guigen/gui_tree_gen.py:304-312 | `get_node_and_children` lists every node of the tree exactly once: the multiset of listed ids is the tree's multiset of ids |
| TreeBuild.FindById | guigenerator/tree_guigen/gui_tree_gen.py:156-159 | looking up a listed container by its id finds a node with that id, and finds nothing exactly when no node of the tree has it |
| TreeBuild.LinkOrdinaryNodeToContainerNode | guigenerator/tree_guigen/gui_tree_gen.py:164-177 | the drawn container takes the drawn ordinary node when it can be its parent and the only-child check allows it, and the node then leaves the ordinary list; otherwise nothing changes |
| TreeBuild.LinkLeafKeeps | guigenerator/tree_guigen/gui_tree_gen.py:164-182 | a leaf step only moves a node: tree and list together keep the same ids, each id once, the drawn container stays in the tree, and the list shrinks by one or nothing changes |
| TreeBuild.LinkLeafKeepsLeaves | guigenerator/tree_guigen/gui_tree_gen.py:172-177 | a leaf step moves the linked node's ordinary widgets from the list into the tree, losing and duplicating none |
| TreeBuild.LinkTwoFixedContainers | guigenerator/tree_guigen/gui_tree_gen.py:184-205 | linking containers (with the only-parent list corrected) yields trees made only of containers |
| TreeBuild.Traversal1 | guigenerator/tree_guigen/gui_tree_gen.py:232-241 | the index walk over the children, recursing into containers and popping those left childless, computes the bottom-up pruning `Pruned` |
| TreeBuild.RemoveEmptyContainers | guigenerator/tree_guigen/gui_tree_gen.py:230-251 | the result is the pruned tree |
| TreeBuild.PrunedIsTrimmed | guigenerator/tree_guigen/gui_tree_gen.py:232-241 | after pruning no container below the root is left without children |
| TreeBuild.PrunedKeepsLeaves | guigenerator/tree_guigen/gui_tree_gen.py:232-241 | pruning drops no ordinary widget and keeps their order |
| TreeBuild.PrunedEmptyIff | guigenerator/tree_guigen/gui_tree_gen.py:236-240 | a container is removed exactly when it holds no ordinary widget at any depth |
| TreeBuild.PrunedIdempotent | guigenerator/tree_guigen/gui_tree_gen.py:230-251 | pruning a pruned tree changes nothing |
| TreeBuild.DtoTraversal | guigenerator/tree_guigen/gui_tree_gen.py:254-259 | the inner walk of `as_dto` yields the DTOs of a node's children in order, walking containers only |
| TreeBuild.AsDto | guigenerator/tree_guigen/gui_tree_gen.py:253-265 | the DTO is the root's name over the DTOs of its children |
| TreeBuild.DtoIsErase | guigenerator/tree_guigen/gui_tree_gen.py:253-265 | when only containers have children, the DTO is the whole tree of names |
| TreeBuild.Shuffle | guigenerator/tree_guigen/gui_tree_gen.py:140 | shuffling the root's children permutes them and keeps the multiset of ordinary widgets under them |
| TreeBuild.InitialUnique | guigenerator/tree_guigen/gui_tree_gen.py:145-155 | the container nodes and the ordinary nodes made from the sample hold each sample position once |
| TreeBuild.OrdinaryIdsCount | guigenerator/tree_guigen/gui_tree_gen.py:153-155 | the ordinary node list holds position i once exactly when entry i of the sample is not a container |
| TreeBuild.LinkContainerNodes | guigenerator/tree_guigen/gui_tree_gen.py:148-149 | the first loop stops exactly when one tree is left; it keeps every id once, builds only container trees and never empties a non-empty list |
| TreeBuild.LeafLoopStep | guigenerator/tree_guigen/gui_tree_gen.py:157-159 | each round of the second loop keeps its invariant: listed containers stay, ids and ordinary widgets only move from the list into the tree |
| TreeBuild.LinkOrdinaryNodes | guigenerator/tree_guigen/gui_tree_gen.py:157-159 | the second loop keeps that invariant from its start to its end |
| TreeBuild.BuildTree | guigenerator/tree_guigen/gui_tree_gen.py:143-162 | with no container in the sample the build fails with IndexError; otherwise a finished build has a container root, no empty container below it, and every ordinary sample entry exactly once |
| TreeBuild.ContainersLinked | guigenerator/tree_guigen/gui_tree_gen.py:150-156 | after the first loop the one tree and the ordinary nodes hold each id once, and the tree holds no ordinary widget yet |
| TreeBuild.LeavesPlaced | guigenerator/tree_guigen/gui_tree_gen.py:157-161 | once the second loop has emptied the list, the tree holds each ordinary sample position once |
| TreeBuild.FirstContainerIndex | guigenerator/tree_guigen/gui_tree_gen.py:396-399 | the position found is a container entry with no container before it; none is found exactly when the catalogue has no container |
| TreeBuild.FirstContainerIndexAgrees | guigenerator/tree_guigen/gui_tree_gen.py:396-399 | `get_first_container_widget` fails exactly when no position is found and otherwise returns the entry at that position |
| TreeBuild.ShuffledRoot | guigenerator/tree_guigen/gui_tree_gen.py:139-140 | a shuffle of the root's children keeps the tree well built |
| TreeBuild.CreateTree | guigenerator/tree_guigen/gui_tree_gen.py:132-141 | with no container in the catalogue the tree fails with IndexError; a finished tree is well built from a sample drawn from the catalogue |
| WidgetObjects.ChildIndex | guigenerator/qt_guigen/widgets/widgetobject/wo_abc.py:93-97 | the least index of a child that is an instance of the class, or -1 when no child is |
| WidgetObjects.FindChildIndex | guigenerator/qt_guigen/widgets/widgetobject/wo_abc.py:93-97 | the scan returns that index |
| WidgetObjects.ChildIndexUnique | guigenerator/qt_guigen/widgets/widgetobject/wo_abc.py:93-97 | the contract of ChildIndex admits only one value |
| WidgetObjects.DescendantsExact | guigenerator/qt_guigen/widgets/widgetobject/wo_abc.py:84-91 | an object is among the found descendants exactly when it is an instance of the class reached through containers |
| WidgetObjects.FindDescendants | guigenerator/qt_guigen/widgets/widgetobject/wo_abc.py:84-91 | the loop with its recursive calls returns the pre-order matches `Descendants` lists |
| WidgetObjects.NonMenu | guigenerator/qt_guigen/widgets/widgetobject/wo_concrete.py:88-96 | the children without the menu items keep every other child, as often as it occurs and in order |
| WidgetObjects.PopPosesIsNonMenu | guigenerator/qt_guigen/widgets/widgetobject/wo_concrete.py:88-96 | the positions the first loop collects can all be popped in turn, and popping them leaves exactly the non-menu children |
| WidgetObjects.PosesSnoc | guigenerator/qt_guigen/widgets/widgetobject/wo_concrete.py:90-93 | each menu item's position is its index less the number of positions already collected |
| WidgetObjects.ContainerObject.constructor | guigenerator/qt_guigen/widgets/widgetobject/wo_abc.py:64-69 | a new container has its names and no children |
| WidgetObjects.ContainerObject.AddChild | guigenerator/qt_guigen/widgets/widgetobject/wo_abc.py:71-73 | the child is appended |
| WidgetObjects.ContainerObject.RemoveChild | guigenerator/qt_guigen/widgets/widgetobject/wo_abc.py:75-76 | the first equal child is removed; ValueError, with nothing changed, when the child is absent |
| WidgetObjects.ContainerObject.GetChild | guigenerator/qt_guigen/widgets/widgetobject/wo_abc.py:78-79 | Python indexing of the children, negative indexes included, IndexError out of range |
| WidgetObjects.ContainerObject.ClearMenubar | guigenerator/qt_guigen/widgets/widgetobject/wo_concrete.py:88-96 | the children lose their menu items, the rest keeping their order |
| WidgetObjects.ContainerObject.AsValue | guigenerator/qt_guigen/widgets/widgetobject/wo_abc.py:64-82 | the container as a value keeps its names and children |
| WidgetObjects.Checkbox | guigenerator/qt_guigen/widgets/widgetobject/wo_abc.py:101-104 | the checkbox is child 0, IndexError when there is none |
| WidgetObjects.FormChild1 | guigenerator/qt_guigen/widgets/widgetobject/wo_abc.py:112-115 | the first widget of a form item is child 0 |
| WidgetObjects.FormChild2 | guigenerator/qt_guigen/widgets/widgetobject/wo_abc.py:117-119 | the second widget of a form item is child 1 |
| WidgetObjects.VerticalScrollBar | guigenerator/qt_guigen/widgets/widgetobject/wo_abc.py:170-173 | the vertical scroll bar is child 0 |
| WidgetObjects.HorizontalScrollBar | guigenerator/qt_guigen/widgets/widgetobject/wo_abc.py:174-177 | the horizontal scroll bar is child 1 |
| WidgetObjects.FormItem | guigenerator/qt_guigen/widgets/widgetobject/wo_abc.py:121-123 | `init_form_item` makes the two widgets children 0 and 1 |
| WidgetObjects.FormItemCocoGeometry | guigenerator/qt_guigen/widgets/widgetobject/wo_abc.py:125-132 | IndexError without children; RuntimeError when child 0 is a button or has no Qt widget, before child 1 is looked at; IndexError when child 0 is usable and there is no child 1; otherwise RuntimeError iff child 1 is a button or has no Qt widget, and else the merged box of the two children's Qt widgets with the item's padding |
| WidgetObjects.LabeledInput | guigenerator/qt_guigen/widgets/widgetobject/wo_concrete.py:379-406 | label left, input right: a label+input container whose label index is 0 |
| WidgetObjects.RevInputEdit | guigenerator/qt_guigen/widgets/widgetobject/wo_concrete.py:409-436 | input left, label right: a label+input container whose label index is 1 |
| WidgetObjects.TopLabeledInput | guigenerator/qt_guigen/widgets/widgetobject/wo_concrete.py:439-467 | label on top, input below: a label+input container whose label index is 0 |
| WidgetObjects.InputAttrs | guigenerator/qt_guigen/widgets/widgetobject/wo_concrete.py:948-977 | TYPE is 1 for the combo boxes and 0 for the line edits, CHECKABLE is set for the checkable proxies only, and ENABLEABLE and HAS_TEXT come last, copied from the proxy |
| WidgetObjects.InputWidget | guigenerator/qt_guigen/widgets/widgetobject/wo_concrete.py:948-980 | an input widget has the proxy as its one child and those attributes |
| WidgetObjects.VertScrollBar | guigenerator/qt_guigen/widgets/widgetobject/wo_concrete.py:1328-1342 | a vertical scroll bar's children are its up button and then its down button |
| WidgetObjects.HorScrollBar | guigenerator/qt_guigen/widgets/widgetobject/wo_concrete.py:1356-1370 | a horizontal scroll bar's children are its left button and then its right button |
| WidgetObjects.Scrollable | guigenerator/qt_guigen/widgets/widgetobject/wo_concrete.py:1099-1103 | the vertical bar is child 0 and the horizontal bar child 1 |
| WidgetObjects.Widget | guigenerator/qt_guigen/widgets/widgetobject/wo_abc.py:51-56 | `widget` raises RuntimeError when unset and always for a scroll bar button, else returns the Qt widget |
| WidgetObjects.ScrollableWidget | guigenerator/qt_guigen/widgets/widgetobject/wo_abc.py:163-168 | a scrollable accepts no widget or a scroll area, and raises RuntimeError otherwise |
| WidgetObjects.DefaultGeometry | guigenerator/qt_guigen/widgets/widgetobject/wo_abc.py:34-35 | the abstract default geometry is the null geometry |
| WidgetObjects.ScrollBarGeometry | guigenerator/qt_guigen/widgets/widgetobject/wo_concrete.py:1318-1326 | a scroll bar has its drawn box when visible and the null geometry otherwise |
| WidgetObjects.ScrollBarButtonCocoGeometry | guigenerator/qt_guigen/widgets/widgetobject/wo_concrete.py:1408-1419 | a button has its box within the bar when the bar is visible and the null geometry otherwise |
| WidgetObjects.TabButtonGeometry | guigenerator/qt_guigen/widgets/widgetobject/wo_concrete.py:865-876 | a tab button's geometry raises RuntimeError exactly when no tab rectangle was given, and is that rectangle's standard box otherwise |
| WidgetObjects.MenuItemCounter.constructor | guigenerator/qt_guigen/widgets/widgetobject/wo_concrete.py:808-809 | the class-level counter starts at 0 |
| WidgetObjects.MenuItemCounter.GetId | guigenerator/qt_guigen/widgets/widgetobject/wo_concrete.py:820-824 | the id is the current count, which then goes up by one |
| WidgetObjects.MenuItemCounter.ResetIdCount | guigenerator/qt_guigen/widgets/widgetobject/wo_concrete.py:842-844 | the count goes back to 0 |
| WidgetObjects.MenuItemCounter.CreateAfterReset | guigenerator/qt_guigen/widgets/widgetobject/wo_concrete.py:820-844 | after a reset the menu items made next get the ids 0, 1, 2, ... in order |
| WidgetGeometry.NotNull | guigenerator/qt_guigen/widgets/widget_geometry.py:38-39 | a geometry counts as drawn exactly when its width is positive (the width is compared twice, the height never) |
| WidgetGeometry.NullGeometry | guigenerator/qt_guigen/widgets/widget_geometry.py:61-62 | the null geometry is (0, 0, -1, -1), which is not drawn |
| WidgetGeometry.NotNullIgnoresHeight | guigenerator/qt_guigen/widgets/widget_geometry.py:38-39 | changing the height never changes whether a geometry counts as drawn |
| WidgetGeometry.Trunc | guigenerator/qt_guigen/widgets/widget_geometry.py:148-149 | `int()` of a real truncates toward zero |
| WidgetGeometry.MergeBoxes | guigenerator/qt_guigen/widgets/widget_geometry.py:106-139 | the union's top-left corner is the smaller of the two per axis and its bottom-right corner the larger, each taken from one of the boxes |
| WidgetGeometry.MergeSymmetric | guigenerator/qt_guigen/widgets/widget_geometry.py:106-139 | merging is symmetric in the two widgets |
| WidgetGeometry.MergedCoversBoth | guigenerator/qt_guigen/widgets/widget_geometry.py:153-162 | for boxes of non-negative size the merged box covers both and each of its edges is an edge of one of them |
| WidgetGeometry.CenterIsHalfWidth | guigenerator/qt_guigen/widgets/widget_geometry.py:142-151 | for a non-negative corner and size the centre `int(tl + w / 2.0)` is `tl + w // 2` |
| WidgetGeometry.CenterTruncatesTowardZero | guigenerator/qt_guigen/widgets/widget_geometry.py:148-149 | left of zero the centre rounds up: a box at -3 of width 3 has its centre at -1 |
| WidgetGeometry.Adjusted | guigenerator/qt_guigen/widgets/widget_geometry.py:440-446 | `QRect.adjusted` moves the top-left corner by the first pair and the bottom-right corner by the second |
| WidgetGeometry.FrameWidthAndHeight | guigenerator/qt_guigen/widgets/widget_geometry.py:456-461 | the frame size is how much wider and taller the frame geometry is than the geometry |
| WidgetGeometry.RelativeWidgetFrameGeometry | guigenerator/qt_guigen/widgets/widget_geometry.py:440-446 | the widget's own rectangle moved up and left by the window frame, its size kept |
| WidgetGeometry.ScreenSize | guigenerator/qt_guigen/widgets/widget_geometry.py:463-473 | the screen is the root frame rectangle plus the screenshot margin on every side |
| WidgetGeometry.ApplyScreenshotMargin | guigenerator/qt_guigen/widgets/widget_geometry.py:475-484 | a point moves by the window frame plus the screenshot margin |
| WidgetGeometry.ApplyBboxPadding | guigenerator/qt_guigen/widgets/widget_geometry.py:486-491 | a box grows by the padding on every side |
| WidgetGeometry.ApplyBboxPaddingForTopLeftPoint | guigenerator/qt_guigen/widgets/widget_geometry.py:493-495 | the top-left corner moves out by the padding on both axes |
| WidgetGeometry.ExcludeScrollBars | guigenerator/qt_guigen/widgets/widget_geometry.py:497-506 | the width loses the vertical bar's width when it is visible, the height the horizontal bar's height when it is visible, and the corner stays |
| WidgetGeometry.QRect.SetWidth | guigenerator/qt_guigen/widgets/widget_geometry.py:501-502 | `setWidth` changes the width only |
| WidgetGeometry.QRect.SetHeight | guigenerator/qt_guigen/widgets/widget_geometry.py:505-506 | `setHeight` changes the height only |
| WidgetGeometry.ExcludeScrollBarsFromGeometry | guigenerator/qt_guigen/widgets/widget_geometry.py:497-506 | the rectangle is changed in place to that value |
| WidgetGeometry.StandardGeometry | guigenerator/qt_guigen/widgets/widget_geometry.py:177-187 | the COCO box: the corner shifted by frame and margin and out by the padding, the size grown by twice the padding |
| WidgetGeometry.NormalizedGeometry | guigenerator/qt_guigen/widgets/widget_geometry.py:164-175 | the YOLO box: shifted centre and padded size, each divided by the screen size; ZeroDivisionError exactly for a screen of width or height 0 |
| WidgetGeometry.ConvertYoloToCoco | guigenerator/qt_guigen/widgets/widget_geometry.py:432-437 | the size scaled back up by the window size, the corner truncated from centre minus half the size |
| WidgetGeometry.YoloAndCocoAgree | guigenerator/qt_guigen/widgets/widget_geometry.py:164-187 | for a box of even size at a non-negative corner, converting its YOLO box back gives its COCO box |
| WidgetGeometry.ConvertBack | guigenerator/qt_guigen/widgets/widget_geometry.py:432-437 | any box normalised from a centre and a padded size converts back to the COCO box of that corner |
| WidgetGeometry.ScrollbarButtonRect | guigenerator/qt_guigen/widgets/widget_geometry.py:189-219 | the four button types get their rectangle (fixed size 15) and every other type raises RuntimeError |
| WidgetGeometry.ScrollbarButtonInsideBar | guigenerator/qt_guigen/widgets/widget_geometry.py:189-219 | in a bar at least one button long, each button lies inside the bar, up and left at its start, down and right at its end |
| WidgetGeometry.CocoScrollbarButtonGeometry | guigenerator/qt_guigen/widgets/widget_geometry.py:405-422 | the COCO box of the button's rectangle; RuntimeError exactly for a non-button type |
| WidgetGeometry.YoloScrollbarButtonCenter | guigenerator/qt_guigen/widgets/widget_geometry.py:319-320 | the centre used is `x + w // 2` and, as written, `y + w // 2` |
| WidgetGeometry.YoloScrollbarCenterOutside | guigenerator/qt_guigen/widgets/widget_geometry.py:319-320 | with the width used on both axes, the centre of the up button of a bar 100 wide lies below the button |
| WidgetGeometry.YoloScrollbarButtonGeometry | guigenerator/qt_guigen/widgets/widget_geometry.py:305-325 | the YOLO box normalised from that centre and the button's size; RuntimeError for a non-button type |
| WidgetGeometry.CocoMergedGeometry | guigenerator/qt_guigen/widgets/widget_geometry.py:334-342 | the COCO box of the merged geometry, which covers the padded boxes of both widgets |
| WidgetGeometry.YoloMergedGeometry | guigenerator/qt_guigen/widgets/widget_geometry.py:228-236 | the YOLO box of the merged centre and size: x and width over the screen width, y and height over the screen height, after the frame, margin and padding shifts; ZeroDivisionError exactly when the screen width or height is 0 |
| WidgetGeometry.MergedWithTopLeft | guigenerator/qt_guigen/widgets/widget_geometry.py:153-162 | the merged size, taken with `abs`, is never negative |
| WidgetDict.LabelInputIds.constructor | guigenerator/qt_guigen/widgets/widget_dict.py:95-98 | the link holds the two ids it is given |
| WidgetDict.LabelInputIds.HaveId | guigenerator/qt_guigen/widgets/widget_dict.py:100-101 | true exactly when the id is the label id or the input id |
| WidgetDict.LabelInputIds.ReplaceLabelId | guigenerator/qt_guigen/widgets/widget_dict.py:103-104 | the label id becomes the new one and the input id is kept |
| WidgetDict.LabelInputIds.ReplaceInputId | guigenerator/qt_guigen/widgets/widget_dict.py:106-107 | the input id becomes the new one and the label id is kept |
| WidgetDict.EmptyState | guigenerator/qt_guigen/widgets/widget_dict.py:18-27 | a new accumulator has four empty dicts, no links and the counter at 0, and satisfies the dicts' invariant |
| WidgetDict.AddLink | guigenerator/qt_guigen/widgets/widget_dict.py:82-91 | label index 0 links the two ids before the counter as (label, input), index 1 as (input, label), and every other index raises RuntimeError |
| WidgetDict.AddRecords | guigenerator/qt_guigen/widgets/widget_dict.py:44-53 | recording an object keeps the invariant and raises the counter by one; it stores the geometry and attributes under the object's name and id exactly when the geometry is not null, and the values exactly when there are some; earlier entries are kept |
| WidgetDict.PutFresh | guigenerator/qt_guigen/widgets/widget_dict.py:62-80 | storing under a fresh id, creating the inner dict for a new name, keeps every earlier entry and every id under one name |
| WidgetDict.AddAllConsistent | guigenerator/qt_guigen/widgets/widget_dict.py:44-53 | recording a list of objects keeps the invariant and raises the counter by their number |
| WidgetDict.WalkIsRecording | guigenerator/qt_guigen/widgets/widget_dict.py:125-137 | a walk that succeeds records exactly the objects `Recorded` lists, in that order, and only adds links |
| WidgetDict.WellFormedWalkOk | guigenerator/qt_guigen/widgets/widget_dict.py:125-137 | a walk over a tree whose label+input containers have their label at index 0 or 1 never raises |
| WidgetDict.WalkFailsWithRuntimeError | guigenerator/qt_guigen/widgets/widget_dict.py:82-91 | a walk that fails raises RuntimeError, and only on a tree that is not well formed |
| WidgetDict.WalkConsistent | guigenerator/qt_guigen/widgets/widget_dict.py:125-137 | a successful walk keeps the invariant and gives each recorded object its own id |
| WidgetDict.LabelInputWalk | guigenerator/qt_guigen/widgets/widget_dict.py:130-134 | a label+input container with the label first records itself and its two children and links the two children's ids as (label, input) |
| WidgetDict.WidgetDataDict.constructor | guigenerator/qt_guigen/widgets/widget_dict.py:18-27 | a new dict is empty and its maximum size is the root's frame size |
| WidgetDict.WidgetDataDict.AddGeometryAttributesValues | guigenerator/qt_guigen/widgets/widget_dict.py:44-53 | the dict's new state is `Add` of its old state |
| WidgetDict.WidgetDataDict.AddTwoLastAddedAsLabelInputLink | guigenerator/qt_guigen/widgets/widget_dict.py:82-91 | the new state is `AddLink` of the old one; on RuntimeError nothing changes |
| WidgetDict.WidgetDataDict.GetGeometryDistrib | guigenerator/qt_guigen/widgets/widget_dict.py:55-59 | each name of the geometry dict maps to its number of entries, and no other name appears |
| WidgetDict.UpdateDictWithWidgetTree | guigenerator/qt_guigen/widgets/widget_dict.py:125-137 | the walk leaves the dict in the state `Walk` computes, and fails with RuntimeError exactly when `Walk` does |
| WidgetDict.CreateDict | guigenerator/qt_guigen/widgets/widget_dict.py:114-119 | a fresh dict filled by the walk from the root, satisfying the invariant; RuntimeError exactly when the walk fails |
| WidgetDict.CreateEmptyDict | guigenerator/qt_guigen/widgets/widget_dict.py:121-123 | a fresh, empty dict |
| WidgetDict.WalkAllIsRecording | guigenerator/qt_guigen/widgets/widget_dict.py:135-137 | a successful walk over a list of children records the objects `RecordedAll` lists, in order, and only adds links |
| WidgetNames.Ordinal | guigenerator/qt_guigen/widgets/widget_names.py:11-89 | each of the 47 members has a declaration position, and the member at that position is itself |
| WidgetNames.OrdinalRoundTrip | guigenerator/qt_guigen/widgets/widget_names.py:11-89 | every position below 47 is the position of the member declared there |
| WidgetNames.Members | guigenerator/qt_guigen/widgets/widget_names.py:11-89 | the members in declaration order, 47 of them, each at its own position |
| WidgetNames.MembersDistinct | guigenerator/qt_guigen/widgets/widget_names.py:11-89 | no member is listed twice |
| WidgetNames.GetPossibleEnumNames | guigenerator/qt_guigen/widgets/widget_names.py:118-120 | every member's value, in declaration order, so every value is among them |
| WidgetNames.RegistryOf | guigenerator/qt_guigen/widgets/widget_names.py:97-106 | a class name is registered exactly when some member has it, and it maps to the last such member in declaration order |
| WidgetNames.EveryClassRegistered | guigenerator/qt_guigen/widgets/widget_names.py:97-106 | every member's class is registered, to a member of that class declared no earlier |
| WidgetNames.RegistryRoundTrip | guigenerator/qt_guigen/widgets/widget_names.py:104-112 | a member that is the only one of its class is what the registry returns for its class |
| WidgetNames.FormBoxRegistersLast | guigenerator/qt_guigen/widgets/widget_names.py:14-17 | the three form-box members share a class, so the registry returns the last, CHECKBOX_BOX, for it |
| WidgetNames.FormBoxOrdinals | guigenerator/qt_guigen/widgets/widget_names.py:14-17 | exactly the members at positions 2 to 4 are drawn by the form-box class |
| WidgetNames.Registry.constructor | guigenerator/qt_guigen/widgets/widget_names.py:9 | the registry starts empty |
| WidgetNames.Registry.Link | guigenerator/qt_guigen/widgets/widget_names.py:104-106 | the member is stored under its class name, replacing any earlier member |
| WidgetNames.Registry.DefineMembers | guigenerator/qt_guigen/widgets/widget_names.py:91-101 | defining the members in order leaves the registry RegistryOf(Members()) |
| WidgetNames.Registry.LinkAll | guigenerator/qt_guigen/widgets/widget_names.py:97-106 | linking a list of members in order leaves the map by class name, the later ones winning |
| WidgetNames.Registry.GetEnumByWoclassname | guigenerator/qt_guigen/widgets/widget_names.py:108-112 | RuntimeError while nothing is registered; otherwise the registered member, or KeyError for an unknown class name |
| WidgetNames.Registry.GetDescriptionName | guigenerator/qt_guigen/widgets/widget_names.py:114-116 | the value of the member found, with the same errors |
| WidgetNames.Description | guigenerator/qt_guigen/widgets/widget_names.py:97-100 | the member's description is the one the configuration holds under its value, or the default description when there is none |
| WidgetNames.FromValueFailsIffNoMember | guigenerator/qt_guigen/widgets/widget_names.py:8-95 | `WidgetNames(s)` raises ValueError exactly when no member has the value `s`, and otherwise finds a member whose value is `s` |
| WidgetNames.DescriptionOfValue | guigenerator/qt_guigen/widgets/widget_names.py:97-148 | the properties of `WidgetNames(s)` raise ValueError exactly when the lookup does, and otherwise come from the description configured for `s`, or the "No_name" one |
| WidgetNames.SomeUnnamedCons | guigenerator/qt_guigen/widgets/widget_names.py:8-95 | a list of nodes has one whose name is no member's value iff its first node does or the rest has one |
| WidgetVals.TypeOf | guigenerator/qt_guigen/widgets/widget_vals.py:39 | `type(v)` is `str` exactly for a string value, and so on for each type |
| WidgetVals.ValsDict.constructor | guigenerator/qt_guigen/widgets/widget_vals.py:20-21 | a builder's dict starts empty |
| WidgetVals.CheckTypes | guigenerator/qt_guigen/widgets/widget_vals.py:38-40 | the scan over the items succeeds exactly when every stored value has its name's data type |
| WidgetVals.NewWidgetValsHolder | guigenerator/qt_guigen/widgets/widget_vals.py:33-40 | the holder keeps the given dict itself, or a fresh empty one for None; RuntimeError exactly when a stored value has the wrong type |
| WidgetVals.WidgetValsHolder.constructor | guigenerator/qt_guigen/widgets/widget_vals.py:33-36 | the holder refers to the dict it is given |
| WidgetVals.WidgetValsHolder.GetValsDict | guigenerator/qt_guigen/widgets/widget_vals.py:47-48 | the stored dict itself, not a copy |
| WidgetVals.WidgetValsHolder.GetAttr | guigenerator/qt_guigen/widgets/widget_vals.py:50-51 | the value stored under the name, KeyError for an absent name |
| WidgetVals.WidgetValsHolder.AddValAsWritten | guigenerator/qt_guigen/widgets/widget_vals.py:42-45 | as written every call raises RuntimeError and stores nothing |
| WidgetVals.WidgetValsHolder.AddVal | guigenerator/qt_guigen/widgets/widget_vals.py:42-45 | with the check on the name's own data type, a conforming value is stored under its name and any other raises RuntimeError, leaving the dict alone; every stored value keeps conforming |
| WidgetVals.WidgetValsHolderBuilder.constructor | guigenerator/qt_guigen/widgets/widget_vals.py:19-21 | a new builder has a fresh empty dict |
| WidgetVals.WidgetValsHolderBuilder.Text | guigenerator/qt_guigen/widgets/widget_vals.py:23-26 | the string is stored under TEXT and the builder itself is returned |
| WidgetVals.WidgetValsHolderBuilder.Build | guigenerator/qt_guigen/widgets/widget_vals.py:28-29 | the holder wraps the builder's own dict, and never fails the type check |
| WidgetVals.TextOnly | guigenerator/qt_guigen/widgets/widget_vals.py:23-29 | a builder that set only the text holds just that text under TEXT |

## Left out

- Randomness: the draws of `randrange`, `random.choices`, `random.shuffle` and `random()` are inputs. `shuffle` is Python's algorithm run on a caller-supplied `randbelow`. The text, font and attribute generators are left out.
- Termination of the rejection loops in `create_sample` and `_build_tree`: the loops are bounded by the length of the draw list, and a run that exhausts it yields `None`. The model does not say what happens after more draws.
- Python object identity: tree nodes carry ids (their positions in the sample), and a drawn sample is a list of catalogue positions. Widget objects are values.
- Python set iteration order: the only-child fix-up visits the has-only-child pairs in the order they first occur in the sample. The source's order is unspecified.
- Floating point: YOLO coordinates, `convert_yolo_to_coco`, areas and ratios are exact reals. Rounding is not modelled.
- Qt: widget construction, `mapTo`, `rect`, `frameGeometry`, `actionGeometry` and visibility are inputs. Rendering a GUI is the parameter `render` of the run, and the widget factory is the parameter `create`.
- `FlowLayout`: `expandingDirections`, `hasHeightForWidth`, `setGeometry`, `sizeHint` and `minimumSize` only hand Qt constants or sizes to Qt, so they are left out. `FlowLayoutContainer` only wraps a Qt widget, so it is left out too.
- The reflection-based class lookup of the widget-object factory (`wo_factory.py`) is not part of this model. The factory is a parameter.
- File, JSON and CSV reading and writing, screenshots and image cropping are left out. The exporters build the records, lines and rows that would be written, and `pathlib` is reduced to joining and to `name`, `suffix` and `stem`.
- Console output and matplotlib plotting in `print_widgets_distribution` are left out. Its aggregation is modelled.
- The inner `traversal` function of `remove_empty_containers` is never called, so it is left out.
- The command-line entry point of `gui_tree_gen.py`, and the file handling of `generate_trees`/`generate_tree`, are left out as I/O.
- `__str__` and `__repr__` methods are left out: they only format text.
- Text fetched over HTTP (`http_requests.py`) is left out. The singleton `MainWindowAccessObject` only holds a Qt window, so it is left out too.
- GuiGen.AddInto: the source's two `+=` statements on `Button` followed by two `pop`s (guigen.py:158-161) are modelled as two add-and-pop steps, one per key. Both orders give the same dict, since neither popped key is `Button`.
- TreeBuild.BuildTree, TreeBuild.LinkContainerNodes, TreeBuild.CreateTree: all three link containers with the corrected step `LinkTwoFixed` (see Findings). The step as written is `TreeLink.LinkTwoContainerNodes`, and `TreeLink.LinkTwoAgrees` shows that the two agree whenever the parent's name is not in the child's accept list.
- WidgetGeometry.YoloScrollbarButtonGeometry: modelled as written, with the width on both axes. No corrected version is given, because the intended formula is not certain from the code.
- WidgetDict.WidgetDataDict.GetGeometryDistrib, WidgetDict.State, ExportData.GetGeometryText, ExportData.CollectLines, ExportData.ExportImageItems, ExportData.CocoExport, ExportData.CsvContentRows: the four dicts of `WidgetDataDict` are Dafny maps, which have no order, so the insertion order Python's dicts keep is not modelled for them. The exporters that walk these dicts take the order as a list the caller supplies (name groups, an image's entries, the widgets of a name), and their contracts speak of that list's order.
- RandomNumbersGen.GenerateWidgetSizeValuesForGrid: the size of each grid child is the parameter `size`, so the same method covers the sizing as written (`ChildSizeAsWritten`) and as intended (`ChildSize`).

## Findings

| source | as written | input that shows it | evidently intended | confidence | as-written member | corrected member |
|---|---|---|---|---|---|---|
| guigenerator/tree_guigen/gui_tree_gen.py:207-228 | the nodes hung under the child include the parent itself whenever the parent's name is in the child's accept list; all of them are then removed from the list | two containers A and B that accept each other, linked with parent 0 and child 1: the list ends empty | exclude the parent from the nodes hung under the child, so every node stays in the forest | not executed | TreeLink.LinkTwoLosesNodes | TreeLink.LinkTwoFixedKeeps |
| guigenerator/qt_guigen/widgets/widget_vals.py:42-45 | `add_val` checks the value's type against the class-level `WidgetContentName.data_type` property object, which is never a type | any call, e.g. the name TEXT with the value "a" | check against `val_name.data_type` | not executed | WidgetVals.WidgetValsHolder.AddValAsWritten | WidgetVals.WidgetValsHolder.AddVal |
| guigenerator/qt_guigen/widgets/random_values_generation/random_numbers_gen.py:25-30 | `child.name == WidgetNames.GROUP_BOX` compares a string with an enum member, so the group-box branch never runs | a central group box holding a label wider than the group box's own minimum | compare with the member's value, so a group box is sized by its children | not executed | RandomNumbersGen.ChildSizeAsWritten | RandomNumbersGen.ChildSize |
