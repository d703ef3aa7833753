/** The integer geometry of src/lcd_ui.c: the expanded hit box used by touch
    dispatch, the default slider handler's position-to-value mapping, and the
    positions computed when a widget is drawn. All arithmetic is that of the
    source's uint16_t and uint32_t variables. */
module LcdGeometry {
  import opened Uint

  /** lcd_ui_widget_type_t */
  datatype WidgetType = Button | Slider | ProgressBar | Label

  /** lcd_ui_align_t values; a stored alignment may lie outside them. */
  const AlignLeft: nat := 0
  const AlignCenter: nat := 1
  const AlignRight: nat := 2

  /** A widget's screen rectangle. */
  datatype Rect = Rect(x: U16, y: U16, width: U16, height: U16)

  /** The touch tolerance around a widget: 6 for buttons, a fifth of the height
      for sliders, 2 for the other types. */
  function Margin(kind: WidgetType, height: U16): U16
  {
    match kind
    case Button => 6
    case Slider => height / 5
    case _ => 2
  }

  /** The hit test of lcd_ui_handle_touch: lower edges saturate at 0, upper edges
      are exclusive and computed in uint16_t. */
  predicate HitBoxContains(kind: WidgetType, r: Rect, px: U16, py: U16)
  {
    var m := Margin(kind, r.height);
    var x0 := if r.x > m then r.x - m else 0;
    var y0 := if r.y > m then r.y - m else 0;
    var x1 := Wrap16(r.x + r.width + m);
    var y1 := Wrap16(r.y + r.height + m);
    px >= x0 && px < x1 && py >= y0 && py < y1
  }

  /** The expanded box's far edges do not wrap around the coordinate range. */
  predicate HitBoxFits(kind: WidgetType, r: Rect)
  {
    r.x + r.width + Margin(kind, r.height) < 0x1_0000 &&
    r.y + r.height + Margin(kind, r.height) < 0x1_0000
  }

  /** Every point of the widget's own rectangle is inside its hit box. */
  lemma HitBoxCoversRect(kind: WidgetType, r: Rect, px: U16, py: U16)
    requires HitBoxFits(kind, r)
    requires r.x <= px < r.x + r.width && r.y <= py < r.y + r.height
    ensures HitBoxContains(kind, r, px, py)
  {
  }

  /** A point further than the margin from the rectangle is outside the box. */
  lemma HitBoxWithinMargin(kind: WidgetType, r: Rect, px: U16, py: U16)
    requires HitBoxFits(kind, r)
    requires HitBoxContains(kind, r, px, py)
    ensures r.x <= px + Margin(kind, r.height) && px < r.x + r.width + Margin(kind, r.height)
    ensures r.y <= py + Margin(kind, r.height) && py < r.y + r.height + Margin(kind, r.height)
  {
  }

  /** Without wrap-around the hit box is exactly the rectangle grown by the
      type's margin on every side, the near edges stopping at 0: every point of
      the margin band is hittable, and nothing beyond it. */
  lemma HitBoxExact(kind: WidgetType, r: Rect, px: U16, py: U16)
    requires HitBoxFits(kind, r)
    ensures HitBoxContains(kind, r, px, py) <==>
              r.x <= px + Margin(kind, r.height) && px < r.x + r.width + Margin(kind, r.height) &&
              r.y <= py + Margin(kind, r.height) && py < r.y + r.height + Margin(kind, r.height)
  {
  }

  /** Left and right ends of the slider's usable range, and its length, half a
      knob (the knob is a square of side height) in from each end. */
  function SliderMinX(r: Rect): U16 { Wrap16(r.x + r.height / 2) }
  function SliderMaxX(r: Rect): U16 { Wrap16(r.x + r.width - r.height / 2) }
  function SliderRange(r: Rect): U16 { Wrap16(SliderMaxX(r) - SliderMinX(r)) }

  /** The slider's geometry does not wrap and leaves a usable range. */
  predicate SliderFits(r: Rect)
  {
    r.x + r.width < 0x1_0000 && 2 * (r.height / 2) < r.width
  }

  /** For geometry that does not wrap, the usable range runs from half a knob
      right of the left edge to half a knob left of the right edge, and its
      length is the distance between the two. */
  lemma SliderEnds(r: Rect)
    requires SliderFits(r)
    ensures SliderMinX(r) == r.x + r.height / 2 && SliderMaxX(r) == r.x + r.width - r.height / 2
    ensures r.x <= SliderMinX(r) < SliderMaxX(r) <= r.x + r.width
    ensures SliderRange(r) == SliderMaxX(r) - SliderMinX(r) > 0
  {
  }

  lemma {:induction false} MulMonotone(x: nat, y: nat, d: nat)
    requires x <= y
    ensures x * d <= y * d
    decreases y - x
  {
    if x < y {
      MulMonotone(x, y - 1, d);
    }
  }

  lemma DivMonotone(a: nat, b: nat, d: nat)
    requires a <= b && d > 0
    ensures a / d <= b / d
  {
    var qa, qb := a / d, b / d;
    if qb < qa {
      MulMonotone(qb + 1, qa, d);
      assert false;
    }
  }

  /** The slider handler's clamp: lo below lo, hi above hi, px otherwise. */
  function ClampToRange(lo: U16, hi: U16, px: U16): (c: U16)
    ensures lo <= hi ==> lo <= c <= hi
    ensures lo <= px <= hi ==> c == px
    ensures px < lo ==> c == lo
    ensures lo <= hi < px ==> c == hi
    ensures hi < lo <= px ==> c == hi
  {
    if px < lo then lo else if px > hi then hi else px
  }

  /** Multiplying by d and dividing by d again gives back k. */
  lemma DivExact(k: nat, d: nat)
    requires d > 0
    ensures k * d / d == k
  {
    var q := k * d / d;
    if q < k {
      MulMonotone(q + 1, k, d);
    } else if q > k {
      MulMonotone(k + 1, q, d);
    }
  }

  /** Clamping to [lo, hi] and measuring from lo stays within the range, in
      uint16_t arithmetic, even when hi has wrapped below lo. */
  lemma ClampedOffsetBound(lo: U16, hi: U16, px: U16)
    ensures Wrap16(ClampToRange(lo, hi, px) - lo) <= Wrap16(hi - lo)
  {
    if px < lo {
      assert Wrap16(lo - lo) == 0;
    } else if px > hi {
    } else {
      assert 0 <= px - lo <= hi - lo < 0x1_0000;
    }
  }

  /** A share of at most the whole, as a truncated percentage, is at most 100. */
  lemma PercentOfWholeBound(part: nat, whole: nat)
    requires whole > 0
    ensures part <= whole ==> part * 100 / whole <= 100
  {
    if part <= whole {
      DivMonotone(part * 100, 100 * whole, whole);
      DivExact(100, whole);
    }
  }

  /** part as a truncated percentage of whole: the slider handler's
      (relative_x * 100U) / range_x. */
  function Percent(part: nat, whole: nat): (p: nat)
    requires whole > 0
    ensures part <= whole ==> p <= 100
    ensures part == whole ==> p == 100
    ensures part == 0 ==> p == 0
  {
    PercentOfWholeBound(part, whole);
    DivExact(100, whole);
    part * 100 / whole
  }

  /** A percentage of at most 100 of n, truncated, is at most n. */
  lemma PercentShareBound(p: nat, n: nat)
    ensures p <= 100 ==> p * n / 100 <= n
  {
    if p <= 100 {
      assert p * n <= 100 * n;
      DivMonotone(p * n, 100 * n, 100);
    }
  }

  /** The value default_slider_touch_handler stores for a touch at px: px
      clamped to the usable range, then scaled to percent with truncation. The
      source divides by the range unguarded, so a zero range is excluded. */
  function SliderValue(r: Rect, px: U16): (v: nat)
    requires SliderRange(r) != 0
    ensures v <= 100
  {
    var minX, maxX := SliderMinX(r), SliderMaxX(r);
    ClampedOffsetBound(minX, maxX, px);
    Percent(Wrap16(ClampToRange(minX, maxX, px) - minX), SliderRange(r))
  }

  /** Within a well-formed slider the value is the truncated percentage of the
      way along the usable range. */
  lemma SliderValueInRange(r: Rect, px: U16)
    requires SliderFits(r)
    requires SliderMinX(r) <= px <= SliderMaxX(r)
    ensures SliderRange(r) == SliderMaxX(r) - SliderMinX(r) > 0
    ensures SliderValue(r, px) == (px - SliderMinX(r)) * 100 / (SliderMaxX(r) - SliderMinX(r))
  {
  }

  /** The value saturates at 0 left of the usable range and at 100 right of it. */
  lemma SliderValueSaturates(r: Rect, px: U16)
    requires SliderFits(r)
    ensures px <= SliderMinX(r) ==> SliderValue(r, px) == 0
    ensures px >= SliderMaxX(r) ==> SliderValue(r, px) == 100
  {
    SliderEnds(r);
    var minX, maxX := SliderMinX(r), SliderMaxX(r);
    if px <= minX {
      assert Wrap16(ClampToRange(minX, maxX, px) - minX) == 0;
    }
    if px >= maxX {
      assert Wrap16(ClampToRange(minX, maxX, px) - minX) == SliderRange(r);
    }
  }

  /** Moving the finger right never lowers the value, also when the ends have
      wrapped: then the value jumps from 0 straight to 100 at min_x. */
  lemma SliderValueMonotone(r: Rect, a: U16, b: U16)
    requires SliderRange(r) != 0
    requires a <= b
    ensures SliderValue(r, a) <= SliderValue(r, b)
  {
    var minX, maxX := SliderMinX(r), SliderMaxX(r);
    var ca: nat, cb: nat := ClampToRange(minX, maxX, a), ClampToRange(minX, maxX, b);
    var ra: nat, rb: nat := Wrap16(ca - minX), Wrap16(cb - minX);
    if minX <= maxX {
      assert ra == ca - minX && rb == cb - minX;
    } else if a < minX {
      assert ra == 0;
    } else {
      assert ca == maxX && cb == maxX;
    }
    assert ra <= rb;
    DivMonotone(ra * 100, rb * 100, SliderRange(r));
  }

  /** The worked example: x 0, width 100, height 20, a touch at 50 gives 50. */
  lemma SliderValueExample()
    ensures SliderMinX(Rect(0, 0, 100, 20)) == 10 && SliderMaxX(Rect(0, 0, 100, 20)) == 90
    ensures SliderValue(Rect(0, 0, 100, 20), 50) == 50
  {
  }

  /** The knob's offset from the widget's left edge before the pull-back: the
      value's share of the usable width, the product taken in uint32_t. For a
      value of at most 100 the product does not wrap and the share is at most
      the usable width. */
  function KnobOffset(sliderValue: U32, usableWidth: U16): (d: nat)
    ensures sliderValue <= 100 ==> d == sliderValue * usableWidth / 100 && d <= usableWidth
  {
    var product: nat := sliderValue * usableWidth;
    ShareFits(sliderValue, usableWidth);
    Wrap32(product) / 100
  }

  /** At most 100 percent of a uint16_t width fits in uint32_t, and its
      truncated hundredth is at most the width. */
  lemma ShareFits(p: nat, n: U16)
    ensures p <= 100 ==> p * n < 0x1_0000_0000 && p * n / 100 <= n
  {
    if p <= 100 {
      MulMonotone(p, 100, n);
      PercentShareBound(p, n);
    }
  }

  /** The knob's left edge in draw_widget: the offset from the left edge, then
      pulled back so that the knob does not pass the right edge. */
  function KnobX(r: Rect, sliderValue: U32): (k: U16)
    ensures r.height <= r.width ==> k + r.height <= r.x + r.width
  {
    var knobSize := r.height;
    var usableWidth := Wrap16(r.width - knobSize);
    var knobX := Wrap16(r.x + KnobOffset(sliderValue, usableWidth));
    if knobX + knobSize > r.x + r.width then Wrap16(r.x + r.width - knobSize) else knobX
  }

  /** For a slider at least as wide as it is high, lying within the coordinate
      range, the knob ends inside the widget; for a value of at most 100 the
      pull-back is never needed and the knob starts inside it too. */
  lemma KnobStaysInside(r: Rect, sliderValue: U32)
    requires r.height <= r.width && r.x + r.width < 0x1_0000
    ensures KnobX(r, sliderValue) + r.height <= r.x + r.width
    ensures sliderValue <= 100 ==>
              r.x <= KnobX(r, sliderValue) &&
              KnobX(r, sliderValue) == r.x + sliderValue * (r.width - r.height) / 100
  {
    if sliderValue <= 100 {
      var usable: U16 := r.width - r.height;
      assert Wrap16(r.width - r.height) == usable;
      var share := KnobOffset(sliderValue, usable);
      assert Wrap16(r.x + share) == r.x + share;
    }
  }

  /** The filled width of a progress bar. */
  function FillWidth(percent: U8, width: U16): (f: U16)
    ensures percent <= 100 ==> f <= width
    ensures percent == 100 ==> f == width
    ensures percent == 0 ==> f == 0
  {
    var share: nat := percent * width / 100;
    PercentShareBound(percent, width);
    assert percent == 100 ==> share == width;
    assert percent == 0 ==> share == 0;
    Wrap16(share)
  }

  /** The left edge of a button's label text of width textWidth (text length
      times font width, as uint16_t). */
  function TextX(align: nat, r: Rect, textWidth: U16): (tx: U16)
    ensures align != AlignCenter && align != AlignRight ==> tx == r.x
    ensures textWidth <= r.width && r.x + r.width < 0x1_0000 ==>
              r.x <= tx && tx + textWidth <= r.x + r.width
    ensures textWidth <= r.width && r.x + r.width < 0x1_0000 && align == AlignRight ==>
              tx + textWidth == r.x + r.width
    ensures textWidth <= r.width && r.x + r.width < 0x1_0000 && align == AlignCenter ==>
              tx - r.x <= r.x + r.width - (tx + textWidth) <= tx - r.x + 1
  {
    if align == AlignCenter then Wrap16(r.x + Wrap32(r.width - textWidth) / 2)
    else if align == AlignRight then Wrap16(r.x + r.width - textWidth)
    else r.x
  }

  /** The top edge of a button's label text: centred vertically. */
  function TextY(r: Rect, fontHeight: U16): (ty: U16)
    ensures fontHeight <= r.height && r.y + r.height < 0x1_0000 ==>
              r.y <= ty && ty + fontHeight <= r.y + r.height &&
              ty - r.y <= r.y + r.height - (ty + fontHeight) <= ty - r.y + 1
  {
    Wrap16(r.y + Wrap32(r.height - fontHeight) / 2)
  }
}
