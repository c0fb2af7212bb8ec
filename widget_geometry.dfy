/**
 * Bounding-box arithmetic of `widget_geometry.py`.
 *
 * Everything Qt computes (widget rectangles, window frame sizes, the
 * offset `mapTo` adds to a point) is an input. A box is stored with real
 * coordinates because the YOLO convention divides by the screen size; the
 * COCO convention only ever stores integers.
 */
module WidgetGeometry {
  import opened Wrappers

  /** `WidgetGeometry(x, y, width, height)`. */
  datatype Geometry = Geometry(x: real, y: real, width: real, height: real)

  datatype Point = Point(x: int, y: int)

  /** A `QRect`: top-left corner and size. */
  datatype Rect = Rect(x: int, y: int, width: int, height: int)

  datatype ScrollbarButtonType = Up | Right | Down | Left | OtherButton

  /** `not_null`: the source tests `width > 0` twice; the height is never looked at. */
  function NotNull(g: Geometry): (r: bool)
    ensures r <==> g.width > 0.0
  {
    g.width > 0.0 && g.width > 0.0
  }

  /** `create_null_widget_geometry`. */
  function NullGeometry(): (g: Geometry)
    ensures !NotNull(g)
    ensures g.x == 0.0 && g.y == 0.0 && g.width == -1.0 && g.height == -1.0
  {
    Geometry(0.0, 0.0, -1.0, -1.0)
  }

  /** A box with a positive width counts as drawn, whatever its height. */
  lemma NotNullIgnoresHeight(g: Geometry, h: real)
    ensures NotNull(g.(height := h)) == NotNull(g)
  {
  }

  // ---------------------------------------------------------------------
  // Python's `int()` of a real

  /** `int(r)`: truncation toward zero. */
  function Trunc(r: real): (i: int)
    ensures r >= 0.0 ==> i >= 0 && i as real <= r < i as real + 1.0
    ensures r < 0.0 ==> i <= 0 && i as real - 1.0 < r <= i as real
  {
    if r >= 0.0 then r.Floor else -((-r).Floor)
  }

  // ---------------------------------------------------------------------
  // Merging two boxes

  /**
   * `_merge_widget_geometries`: the top-left and bottom-right corners of
   * the union of two boxes given by their mapped top-left corners and sizes.
   */
  function MergeBoxes(tl1: Point, w1: int, h1: int, tl2: Point, w2: int, h2: int): (r: (Point, Point))
    ensures r.0.x <= tl1.x && r.0.x <= tl2.x && (r.0.x == tl1.x || r.0.x == tl2.x)
    ensures r.0.y <= tl1.y && r.0.y <= tl2.y && (r.0.y == tl1.y || r.0.y == tl2.y)
    ensures r.1.x >= tl1.x + w1 && r.1.x >= tl2.x + w2 && (r.1.x == tl1.x + w1 || r.1.x == tl2.x + w2)
    ensures r.1.y >= tl1.y + h1 && r.1.y >= tl2.y + h2 && (r.1.y == tl1.y + h1 || r.1.y == tl2.y + h2)
  {
    var br1 := Point(tl1.x + w1, tl1.y + h1);
    var br2 := Point(tl2.x + w2, tl2.y + h2);
    (Point(Min(tl1.x, tl2.x), Min(tl1.y, tl2.y)), Point(Max(br1.x, br2.x), Max(br1.y, br2.y)))
  }

  function Min(a: int, b: int): int { if a <= b then a else b }
  function Max(a: int, b: int): int { if a >= b then a else b }

  function Abs(a: int): (r: int)
    ensures r >= 0 && (r == a || r == -a)
  {
    if a >= 0 then a else -a
  }

  /** Merging is symmetric in the two boxes. */
  lemma MergeSymmetric(tl1: Point, w1: int, h1: int, tl2: Point, w2: int, h2: int)
    ensures MergeBoxes(tl1, w1, h1, tl2, w2, h2) == MergeBoxes(tl2, w2, h2, tl1, w1, h1)
  {
  }

  /**
   * `_calculate_merged_geometry_with_top_left_point`: top-left corner and
   * size of the union, the size being `abs(br - tl)` per axis.
   */
  function MergedWithTopLeft(tl1: Point, w1: int, h1: int, tl2: Point, w2: int, h2: int): (r: (int, int, int, int))
    ensures r.2 >= 0 && r.3 >= 0
  {
    var (tl, br) := MergeBoxes(tl1, w1, h1, tl2, w2, h2);
    (tl.x, tl.y, Abs(br.x - tl.x), Abs(br.y - tl.y))
  }

  /** For boxes of non-negative size, the merged box covers both boxes and is the least box that does. */
  lemma MergedCoversBoth(tl1: Point, w1: int, h1: int, tl2: Point, w2: int, h2: int)
    requires w1 >= 0 && h1 >= 0 && w2 >= 0 && h2 >= 0
    ensures var (x, y, w, h) := MergedWithTopLeft(tl1, w1, h1, tl2, w2, h2);
      && x <= tl1.x && tl1.x + w1 <= x + w && x <= tl2.x && tl2.x + w2 <= x + w
      && y <= tl1.y && tl1.y + h1 <= y + h && y <= tl2.y && tl2.y + h2 <= y + h
      && (x == tl1.x || x == tl2.x) && (x + w == tl1.x + w1 || x + w == tl2.x + w2)
      && (y == tl1.y || y == tl2.y) && (y + h == tl1.y + h1 || y + h == tl2.y + h2)
  {
    var (tl, br) := MergeBoxes(tl1, w1, h1, tl2, w2, h2);
    assert br.x - tl.x >= 0 && br.y - tl.y >= 0;
  }

  lemma MergedCoversBothIfSized(tl1: Point, w1: int, h1: int, tl2: Point, w2: int, h2: int)
    ensures w1 >= 0 && h1 >= 0 && w2 >= 0 && h2 >= 0 ==>
      var (x, y, w, h) := MergedWithTopLeft(tl1, w1, h1, tl2, w2, h2);
      && x <= tl1.x && x <= tl2.x && y <= tl1.y && y <= tl2.y
      && w >= w1 && w >= w2 && h >= h1 && h >= h2
  {
    if w1 >= 0 && h1 >= 0 && w2 >= 0 && h2 >= 0 {
      MergedCoversBoth(tl1, w1, h1, tl2, w2, h2);
    }
  }

  /** `_calculate_merged_geometry_with_center_point`: the centre is `int(tl + w / 2.0)` per axis. */
  function MergedWithCenter(tl1: Point, w1: int, h1: int, tl2: Point, w2: int, h2: int): (r: (int, int, int, int))
  {
    var (x, y, w, h) := MergedWithTopLeft(tl1, w1, h1, tl2, w2, h2);
    (Trunc(x as real + w as real / 2.0), Trunc(y as real + h as real / 2.0), w, h)
  }

  /** Where the corner is non-negative, `int(tl + w / 2.0)` is the integer `tl + w // 2`. */
  lemma CenterIsHalfWidth(tl: int, w: int)
    requires tl >= 0 && w >= 0
    ensures Trunc(tl as real + w as real / 2.0) == tl + w / 2
  {
    var q, r := w / 2, w % 2;
    assert w == 2 * q + r;
    assert w as real / 2.0 == q as real + r as real / 2.0;
    assert (tl + q) as real <= tl as real + w as real / 2.0 < (tl + q) as real + 1.0;
  }

  /** Left of zero the truncation rounds up: a box at -3 of width 3 has its centre at -1, not -2. */
  lemma CenterTruncatesTowardZero()
    ensures Trunc(-3.0 + 3.0 / 2.0) == -1
  {
  }

  // ---------------------------------------------------------------------
  // `WidgetGeometryUtils`

  /** `QRect.adjusted(dx1, dy1, dx2, dy2)`: move the top-left and bottom-right corners. */
  function Adjusted(r: Rect, dx1: int, dy1: int, dx2: int, dy2: int): (a: Rect)
    ensures a.x == r.x + dx1 && a.y == r.y + dy1
    ensures a.x + a.width == r.x + r.width + dx2 && a.y + a.height == r.y + r.height + dy2
  {
    Rect(r.x + dx1, r.y + dy1, r.width + dx2 - dx1, r.height + dy2 - dy1)
  }

  /**
   * `get_widget_window_frame_width_and_height`: how much wider and taller
   * the window's frame geometry is than its client geometry.
   */
  function FrameWidthAndHeight(geometry: Rect, frameGeometry: Rect): (r: (int, int))
    ensures geometry.width + r.0 == frameGeometry.width && geometry.height + r.1 == frameGeometry.height
  {
    (frameGeometry.width - geometry.width, frameGeometry.height - geometry.height)
  }

  /**
   * `get_relative_widget_frame_geometry`: the widget's own rectangle
   * `(0, 0, w, h)` shifted up and left by the window's frame size.
   */
  function RelativeWidgetFrameGeometry(widgetWidth: int, widgetHeight: int, frame: (int, int)): (r: Rect)
    ensures r == Rect(-frame.0, -frame.1, widgetWidth, widgetHeight)
  {
    Adjusted(Rect(0, 0, widgetWidth, widgetHeight), -frame.0, -frame.1, -frame.0, -frame.1)
  }

  /** `calculate_screen_size`: the root window's frame rectangle plus the screenshot margin on each side. */
  function ScreenSize(rootFrame: Rect, margin: int): (r: (int, int))
    ensures r.0 - rootFrame.width == 2 * margin && r.1 - rootFrame.height == 2 * margin
  {
    (rootFrame.width + 2 * margin, rootFrame.height + 2 * margin)
  }

  /** `apply_screenshot_margin`: shift a point by the window frame and the screenshot margin. */
  function ApplyScreenshotMargin(x: int, y: int, frame: (int, int), margin: int): (r: (int, int))
    ensures r.0 - x == frame.0 + margin && r.1 - y == frame.1 + margin
  {
    (x + frame.0 + margin, y + frame.1 + margin)
  }

  /** `apply_bbox_padding`: the box grows by the padding on every side. */
  function ApplyBboxPadding(width: int, height: int, padding: int): (r: (int, int))
    ensures r.0 - width == 2 * padding && r.1 - height == 2 * padding
  {
    (width + 2 * padding, height + 2 * padding)
  }

  /** `apply_bbox_padding_for_top_left_point`. */
  function ApplyBboxPaddingForTopLeftPoint(x: int, y: int, padding: int): (r: (int, int))
    ensures x - r.0 == padding && y - r.1 == padding
  {
    (x - padding, y - padding)
  }

  /**
   * `exclude_scroll_bars_from_geometry` as a value: the width loses the
   * vertical bar's width when that bar is visible, the height loses the
   * horizontal bar's height when that bar is visible.
   */
  function ExcludeScrollBars(r: Rect, verticalVisible: bool, verticalWidth: int,
                             horizontalVisible: bool, horizontalHeight: int): (e: Rect)
    ensures e.x == r.x && e.y == r.y
    ensures e.width == if verticalVisible then r.width - verticalWidth else r.width
    ensures e.height == if horizontalVisible then r.height - horizontalHeight else r.height
  {
    var w := if verticalVisible then r.width - verticalWidth else r.width;
    var h := if horizontalVisible then r.height - horizontalHeight else r.height;
    Rect(r.x, r.y, w, h)
  }

  /** A mutable `QRect`, as `exclude_scroll_bars_from_geometry` changes it in place. */
  class QRect {
    var x: int
    var y: int
    var width: int
    var height: int

    constructor (r: Rect)
      ensures Value() == r
    {
      x, y, width, height := r.x, r.y, r.width, r.height;
    }

    function Value(): Rect
      reads this
    {
      Rect(x, y, width, height)
    }

    /** `setWidth`: keeps the left edge. */
    method SetWidth(w: int)
      modifies this
      ensures Value() == old(Value()).(width := w)
    {
      width := w;
    }

    /** `setHeight`: keeps the top edge. */
    method SetHeight(h: int)
      modifies this
      ensures Value() == old(Value()).(height := h)
    {
      height := h;
    }
  }

  /** `exclude_scroll_bars_from_geometry(widget, geometry)`, with the bars' visibility and sizes as inputs. */
  method ExcludeScrollBarsFromGeometry(geometry: QRect, verticalVisible: bool, verticalWidth: int,
                                       horizontalVisible: bool, horizontalHeight: int)
    modifies geometry
    ensures geometry.Value() == ExcludeScrollBars(old(geometry.Value()), verticalVisible, verticalWidth,
                                                  horizontalVisible, horizontalHeight)
  {
    if verticalVisible {
      var shrankWidth := geometry.width - verticalWidth;
      geometry.SetWidth(shrankWidth);
    }
    if horizontalVisible {
      var shrankHeight := geometry.height - horizontalHeight;
      geometry.SetHeight(shrankHeight);
    }
  }

  // ---------------------------------------------------------------------
  // The two output conventions

  /**
   * `_create_standard_geometry` (COCO): top-left corner shifted by the
   * window frame and the screenshot margin and moved out by the padding,
   * size grown by twice the padding.
   */
  function StandardGeometry(topLeftX: int, topLeftY: int, w: int, h: int, padding: int,
                            frame: (int, int), margin: int): (g: Geometry)
    ensures g.x == (topLeftX + frame.0 + margin - padding) as real
    ensures g.y == (topLeftY + frame.1 + margin - padding) as real
    ensures g.width == (w + 2 * padding) as real && g.height == (h + 2 * padding) as real
  {
    var (pw, ph) := ApplyBboxPadding(w, h, padding);
    var (mx, my) := ApplyScreenshotMargin(topLeftX, topLeftY, frame, margin);
    var (x, y) := ApplyBboxPaddingForTopLeftPoint(mx, my, padding);
    Geometry(x as real, y as real, pw as real, ph as real)
  }

  /**
   * `_create_normalized_geometry` (YOLO): the centre shifted by the window
   * frame and the margin, the padded size, each divided by the screen
   * size. A screen of width or height 0 raises ZeroDivisionError.
   */
  function NormalizedGeometry(centerX: int, centerY: int, w: int, h: int, padding: int,
                              frame: (int, int), margin: int, screen: (int, int)): (r: Result<Geometry>)
    ensures r.Err? <==> screen.0 == 0 || screen.1 == 0
    ensures r.Err? ==> r.error == ZeroDivisionError
    ensures r.Ok? ==>
      && r.value.x * screen.0 as real == (centerX + frame.0 + margin) as real
      && r.value.y * screen.1 as real == (centerY + frame.1 + margin) as real
      && r.value.width * screen.0 as real == (w + 2 * padding) as real
      && r.value.height * screen.1 as real == (h + 2 * padding) as real
  {
    var (pw, ph) := ApplyBboxPadding(w, h, padding);
    var (x, y) := ApplyScreenshotMargin(centerX, centerY, frame, margin);
    if screen.0 == 0 || screen.1 == 0 then Err(ZeroDivisionError)
    else
      var sw, sh := screen.0 as real, screen.1 as real;
      Ok(Geometry(x as real / sw, y as real / sh, pw as real / sw, ph as real / sh))
  }

  /** `convert_yolo_to_coco`, over exact reals: scale back up and move from the centre to the top-left corner. */
  function ConvertYoloToCoco(g: Geometry, windowW: int, windowH: int): (c: Geometry)
    ensures c.width == g.width * windowW as real && c.height == g.height * windowH as real
    ensures c.x == CornerFromCenter(g.x * windowW as real, c.width) as real
    ensures c.y == CornerFromCenter(g.y * windowH as real, c.height) as real
  {
    var w, h := g.width * windowW as real, g.height * windowH as real;
    Geometry(CornerFromCenter(g.x * windowW as real, w) as real, CornerFromCenter(g.y * windowH as real, h) as real, w, h)
  }

  /** `int(center - size / 2)`: the near edge of a box given by its centre and size. */
  function CornerFromCenter(center: real, size: real): (i: int)
    ensures i == Trunc(center - size / 2.0)
  {
    Trunc(center - size / 2.0)
  }

  /**
   * The two conventions describe the same box: for a box of even size at
   * a non-negative corner, converting the YOLO box back gives the COCO box.
   */
  lemma YoloAndCocoAgree(tlx: int, tly: int, w: int, h: int, padding: int, frame: (int, int), margin: int,
                         screen: (int, int))
    requires tlx >= 0 && tly >= 0 && w >= 0 && h >= 0 && w % 2 == 0 && h % 2 == 0
    requires screen.0 != 0 && screen.1 != 0
    ensures var n := NormalizedGeometry(tlx + w / 2, tly + h / 2, w, h, padding, frame, margin, screen);
      n.Ok? && ConvertYoloToCoco(n.value, screen.0, screen.1) == StandardGeometry(tlx, tly, w, h, padding, frame, margin)
  {
    var n := NormalizedGeometry(tlx + w / 2, tly + h / 2, w, h, padding, frame, margin, screen).value;
    ConvertBack(n, tlx, tly, w, h, padding, frame, margin, screen);
  }

  /** The conversion back, from what `_create_normalized_geometry` promises about the scaled box. */
  lemma ConvertBack(n: Geometry, tlx: int, tly: int, w: int, h: int, padding: int, frame: (int, int), margin: int,
                    screen: (int, int))
    requires w % 2 == 0 && h % 2 == 0 && screen.0 != 0 && screen.1 != 0
    requires n.x * screen.0 as real == (tlx + w / 2 + frame.0 + margin) as real
    requires n.y * screen.1 as real == (tly + h / 2 + frame.1 + margin) as real
    requires n.width * screen.0 as real == (w + 2 * padding) as real
    requires n.height * screen.1 as real == (h + 2 * padding) as real
    ensures ConvertYoloToCoco(n, screen.0, screen.1) == StandardGeometry(tlx, tly, w, h, padding, frame, margin)
  {
    var c := ConvertYoloToCoco(n, screen.0, screen.1);
    AxisAgrees(tlx, w, padding, frame.0 + margin);
    AxisAgrees(tly, h, padding, frame.1 + margin);
    assert c.x == CornerFromCenter(n.x * screen.0 as real, c.width) as real;
    assert c.width == (w + 2 * padding) as real;
    assert c.x == CornerFromCenter(n.x * screen.0 as real, (w + 2 * padding) as real) as real;
    assert c.x == CornerFromCenter((tlx + w / 2 + (frame.0 + margin)) as real, (w + 2 * padding) as real) as real;
    assert c.y == CornerFromCenter(n.y * screen.1 as real, c.height) as real;
    assert c.height == (h + 2 * padding) as real;
    assert c.y == CornerFromCenter(n.y * screen.1 as real, (h + 2 * padding) as real) as real;
    assert c.y == CornerFromCenter((tly + h / 2 + (frame.1 + margin)) as real, (h + 2 * padding) as real) as real;
  }

  /** One axis of that agreement: the normalised centre and size, scaled back, give the padded corner. */
  lemma AxisAgrees(t: int, w: int, padding: int, offset: int)
    requires w % 2 == 0
    ensures CornerFromCenter((t + w / 2 + offset) as real, (w + 2 * padding) as real) == t + offset - padding
  {
    assert (w + 2 * padding) as real / 2.0 == (w / 2 + padding) as real;
    TruncInt(t + offset - padding);
  }

  lemma TruncInt(i: int)
    ensures Trunc(i as real) == i
  {
  }

  // ---------------------------------------------------------------------
  // Scroll bar buttons

  /** The fixed size of a scroll bar button. */
  const ScrollbarButtonSize := 15

  /**
   * `_get_scrollbar_btn_rect`: the button's rectangle inside its bar; a
   * type other than the four buttons raises RuntimeError.
   */
  function ScrollbarButtonRect(btnType: ScrollbarButtonType, parentX: int, parentY: int,
                               parentW: int, parentH: int): (r: Result<Rect>)
    ensures r.Err? <==> btnType == OtherButton
    ensures r.Err? ==> r.error == RuntimeError
  {
    var m := ScrollbarButtonSize;
    match btnType
    case Up => Ok(Rect(parentX, parentY, parentW, m))
    case Right => Ok(Rect(parentX + parentW - m, parentY, m, parentH))
    case Down => Ok(Rect(parentX, parentY + parentH - m, parentW, m))
    case Left => Ok(Rect(parentX, parentY, m, parentH))
    case OtherButton => Err(RuntimeError)
  }

  predicate Inside(inner: Rect, outer: Rect) {
    outer.x <= inner.x && inner.x + inner.width <= outer.x + outer.width
    && outer.y <= inner.y && inner.y + inner.height <= outer.y + outer.height
  }

  /**
   * In a bar at least one button long in the direction the button sits,
   * each button lies inside the bar, at its start (up, left) or its end
   * (down, right).
   */
  lemma ScrollbarButtonInsideBar(btnType: ScrollbarButtonType, x: int, y: int, w: int, h: int)
    requires btnType != OtherButton && w >= 0 && h >= 0
    requires (btnType == Up || btnType == Down) ==> h >= ScrollbarButtonSize
    requires (btnType == Left || btnType == Right) ==> w >= ScrollbarButtonSize
    ensures var r := ScrollbarButtonRect(btnType, x, y, w, h);
      && r.Ok? && Inside(r.value, Rect(x, y, w, h))
      && (btnType == Up || btnType == Left ==> r.value.x == x && r.value.y == y)
      && (btnType == Down ==> r.value.y + r.value.height == y + h)
      && (btnType == Right ==> r.value.x + r.value.width == x + w)
  {
  }

  /**
   * `WidgetCocoGeometryFactory.create_scrollbar_button_geometry`: the
   * standard box of the button's rectangle, the bar's mapped top-left
   * corner and size given.
   */
  function CocoScrollbarButtonGeometry(padding: int, btnType: ScrollbarButtonType, barTopLeft: Point,
                                       barW: int, barH: int, frame: (int, int), margin: int): (r: Result<Geometry>)
    ensures r.Err? <==> btnType == OtherButton
    ensures r.Ok? ==>
      var b := ScrollbarButtonRect(btnType, barTopLeft.x, barTopLeft.y, barW, barH).value;
      r.value == StandardGeometry(b.x, b.y, b.width, b.height, padding, frame, margin)
  {
    var b := ScrollbarButtonRect(btnType, barTopLeft.x, barTopLeft.y, barW, barH);
    if b.Err? then Err(b.error)
    else Ok(StandardGeometry(b.value.x, b.value.y, b.value.width, b.value.height, padding, frame, margin))
  }

  /**
   * The centre `WidgetYoloGeometryFactory.create_scrollbar_button_geometry`
   * uses: `x + w // 2` and, as written, `y + w // 2` (the width on both axes).
   */
  function YoloScrollbarButtonCenter(b: Rect): (c: Point)
    ensures c.x - b.x == b.width / 2 && c.y - b.y == b.width / 2
  {
    Point(b.x + b.width / 2, b.y + b.width / 2)
  }

  /** Because of that, the centre of the up button of a bar 100 pixels wide lies below the button. */
  lemma YoloScrollbarCenterOutside()
    ensures var b := ScrollbarButtonRect(Up, 0, 0, 100, 15).value;
      YoloScrollbarButtonCenter(b).y >= b.y + b.height
  {
  }

  /** The YOLO scroll bar button box: normalised from that centre and the button's size. */
  function YoloScrollbarButtonGeometry(padding: int, btnType: ScrollbarButtonType, barTopLeft: Point,
                                       barW: int, barH: int, frame: (int, int), margin: int,
                                       screen: (int, int)): (r: Result<Geometry>)
    ensures btnType == OtherButton ==> r == Err(RuntimeError)
    ensures btnType != OtherButton ==>
      var b := ScrollbarButtonRect(btnType, barTopLeft.x, barTopLeft.y, barW, barH).value;
      var c := YoloScrollbarButtonCenter(b);
      r == NormalizedGeometry(c.x, c.y, b.width, b.height, padding, frame, margin, screen)
  {
    var b := ScrollbarButtonRect(btnType, barTopLeft.x, barTopLeft.y, barW, barH);
    if b.Err? then Err(b.error)
    else
      var c := YoloScrollbarButtonCenter(b.value);
      NormalizedGeometry(c.x, c.y, b.value.width, b.value.height, padding, frame, margin, screen)
  }

  // ---------------------------------------------------------------------
  // Merged boxes in the two conventions

  /** `WidgetCocoGeometryFactory.create_merged_widget_geometry`. */
  function CocoMergedGeometry(tl1: Point, w1: int, h1: int, tl2: Point, w2: int, h2: int, padding: int,
                              frame: (int, int), margin: int): (g: Geometry)
    ensures w1 >= 0 && h1 >= 0 && w2 >= 0 && h2 >= 0 ==>
      && g.x <= (tl1.x + frame.0 + margin - padding) as real
      && g.x <= (tl2.x + frame.0 + margin - padding) as real
      && g.y <= (tl1.y + frame.1 + margin - padding) as real
      && g.y <= (tl2.y + frame.1 + margin - padding) as real
      && g.width >= (w1 + 2 * padding) as real && g.width >= (w2 + 2 * padding) as real
      && g.height >= (h1 + 2 * padding) as real && g.height >= (h2 + 2 * padding) as real
  {
    var (x, y, w, h) := MergedWithTopLeft(tl1, w1, h1, tl2, w2, h2);
    MergedCoversBothIfSized(tl1, w1, h1, tl2, w2, h2);
    StandardGeometry(x, y, w, h, padding, frame, margin)
  }

  /** `WidgetYoloGeometryFactory.create_merged_widget_geometry`. */
  function YoloMergedGeometry(tl1: Point, w1: int, h1: int, tl2: Point, w2: int, h2: int, padding: int,
                              frame: (int, int), margin: int, screen: (int, int)): (r: Result<Geometry>)
    ensures r.Err? <==> screen.0 == 0 || screen.1 == 0
    ensures r.Err? ==> r.error == ZeroDivisionError
    ensures r.Ok? ==>
      var (cx, cy, w, h) := MergedWithCenter(tl1, w1, h1, tl2, w2, h2);
      && r.value.x * screen.0 as real == (cx + frame.0 + margin) as real
      && r.value.y * screen.1 as real == (cy + frame.1 + margin) as real
      && r.value.width * screen.0 as real == (w + 2 * padding) as real
      && r.value.height * screen.1 as real == (h + 2 * padding) as real
  {
    var (cx, cy, w, h) := MergedWithCenter(tl1, w1, h1, tl2, w2, h2);
    NormalizedGeometry(cx, cy, w, h, padding, frame, margin, screen)
  }
}
