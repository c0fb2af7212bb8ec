/**
 * The COCO annotation record (`coco_dto.py`, `AnnotationDto`) and the
 * defaults its constructor fills in: the area of the box, the "occluded"
 * attribute, an empty segmentation and `iscrowd` 0.
 */
module CocoDto {
  import opened Wrappers
  import opened Attributes
  import PyDict

  /** A value in an annotation's attributes: the "occluded" flag or an attribute's state name. */
  datatype AttrValue = BoolVal(b: bool) | StateVal(s: AttrState)

  type AttrMap = PyDict.Dict<string, AttrValue>

  datatype Annotation = Annotation(
    id: int, imageId: int, categoryId: int, segmentation: seq<real>, area: real,
    bbox: seq<real>, iscrowd: int, attributes: AttrMap)

  /** The attribute dict a caller passes in, which the constructor completes in place. */
  class AttributesDict {
    var d: AttrMap

    constructor (d: AttrMap)
      ensures this.d == d
    {
      this.d := d;
    }
  }

  /** The attributes after the defaults: `{"occluded": False}` for None, else "occluded" added when missing. */
  function DefaultAttributes(given: Option<AttrMap>): (r: AttrMap)
    requires given.Some? ==> PyDict.Valid(given.value)
    ensures PyDict.Valid(r) && "occluded" in r.m
    ensures given.None? ==> r.keys == ["occluded"] && r.m["occluded"] == BoolVal(false)
    ensures given.Some? && "occluded" in given.value.m ==> r == given.value
    ensures given.Some? && "occluded" !in given.value.m ==>
      r.keys == given.value.keys + ["occluded"] && r.m == given.value.m["occluded" := BoolVal(false)]
  {
    match given
    case None => PyDict.Set(PyDict.Empty(), "occluded", BoolVal(false))
    case Some(d) => if "occluded" in d.m then d else PyDict.Set(d, "occluded", BoolVal(false))
  }

  /**
   * `AnnotationDto(...)`: an area of -1 becomes the box's width times its
   * height (IndexError for a box of fewer than four numbers), a None
   * segmentation becomes empty, and the attributes get their default. A
   * passed attribute dict is completed in place and becomes the record's.
   */
  method NewAnnotationDto(id: int, imageId: int, categoryId: int, bbox: seq<real>, area: real, iscrowd: int,
                          segmentation: Option<seq<real>>, attributes: Option<AttributesDict>)
    returns (r: Result<Annotation>)
    requires attributes.Some? ==> PyDict.Valid(attributes.value.d)
    modifies if attributes.Some? then {attributes.value} else {}
    ensures r.Err? <==> area == -1.0 && |bbox| < 4
    ensures r.Err? ==> r.error == IndexError
    ensures attributes.Some? && r.Ok? ==> attributes.value.d == DefaultAttributes(Some(old(attributes.value.d)))
    ensures r.Ok? ==> r.value == NewAnnotation(id, imageId, categoryId, bbox, area, iscrowd, segmentation,
                                               if attributes.Some? then Some(old(attributes.value.d)) else None).value
  {
    r := NewAnnotation(id, imageId, categoryId, bbox, area, iscrowd, segmentation,
                       if attributes.Some? then Some(attributes.value.d) else None);
    if r.Ok? && attributes.Some? {
      attributes.value.d := r.value.attributes;
    }
  }

  /** The record `AnnotationDto(...)` builds, as a value. */
  function NewAnnotation(id: int, imageId: int, categoryId: int, bbox: seq<real>, area: real, iscrowd: int,
                         segmentation: Option<seq<real>>, attributes: Option<AttrMap>): (r: Result<Annotation>)
    requires attributes.Some? ==> PyDict.Valid(attributes.value)
    ensures r.Err? <==> area == -1.0 && |bbox| < 4
    ensures r.Err? ==> r.error == IndexError
    ensures r.Ok? ==>
      && r.value.id == id && r.value.imageId == imageId && r.value.categoryId == categoryId
      && r.value.bbox == bbox && r.value.iscrowd == iscrowd
      && r.value.area == (if area == -1.0 then bbox[2] * bbox[3] else area)
      && r.value.segmentation == (if segmentation.None? then [] else segmentation.value)
      && r.value.attributes == DefaultAttributes(attributes)
  {
    if area == -1.0 && |bbox| < 4 then Err(IndexError)
    else
      Ok(Annotation(id, imageId, categoryId, if segmentation.None? then [] else segmentation.value,
        if area == -1.0 then bbox[2] * bbox[3] else area, bbox, iscrowd, DefaultAttributes(attributes)))
  }

  /**
   * The defaults keep what was given: every attribute passed in keeps its
   * value (an "occluded" flag included), and only "occluded" can be added.
   */
  lemma DefaultsKeepGiven(given: AttrMap, k: string)
    requires PyDict.Valid(given)
    ensures var r := DefaultAttributes(Some(given));
      && (k in given.m ==> k in r.m && r.m[k] == given.m[k])
      && (k in r.m && k !in given.m ==> k == "occluded" && r.m[k] == BoolVal(false))
  {
  }

  /** The record an exporter makes for a box: area w * h, not a crowd, no segmentation, not occluded. */
  lemma ExportedBoxDefaults(id: int, imageId: int, categoryId: int, x: real, y: real, w: real, h: real)
    ensures var r := NewAnnotation(id, imageId, categoryId, [x, y, w, h], -1.0, 0, None, None);
      && r.Ok? && r.value.area == w * h && r.value.iscrowd == 0 && r.value.segmentation == []
      && r.value.attributes.keys == ["occluded"] && r.value.attributes.m == map["occluded" := BoolVal(false)]
  {
    var r := NewAnnotation(id, imageId, categoryId, [x, y, w, h], -1.0, 0, None, None);
    assert r.value.attributes.m == map["occluded" := BoolVal(false)];
  }
}
