/** The widget registry and touch dispatch of src/lcd_ui.c. A context holds a
    caller-supplied array of widget references, the number registered, and a
    touch session: whether a touch is in progress and which widget, if any, it
    latched when it began. */
module LcdUi {
  import opened Uint
  import opened LcdGeometry

  /** lcd_ui_widget_t. The toolkit never writes a widget's geometry, type,
      callbacks or user data, so they are constants here; it writes the slider
      value, the progress percent and the text alignment. The callbacks are
      represented by whether they are set; a call is recorded in the context's
      log. The opaque user data is modelled as an optional widget: the default
      slider handler reads it as a linked progress bar. */
  class Widget {
    const rect: Rect
    const kind: WidgetType
    const hasOnTouch: bool
    const hasSliderUpdate: bool
    const userData: Widget?
    var progressPercent: U8
    var sliderValue: U32
    var textAlign: nat

    constructor (rect: Rect, kind: WidgetType, hasOnTouch: bool, hasSliderUpdate: bool,
                 userData: Widget?, progressPercent: U8, sliderValue: U32, textAlign: nat)
      ensures this.rect == rect && this.kind == kind && this.hasOnTouch == hasOnTouch
      ensures this.hasSliderUpdate == hasSliderUpdate && this.userData == userData
      ensures this.progressPercent == progressPercent && this.sliderValue == sliderValue
      ensures this.textAlign == textAlign
    {
      this.rect := rect;
      this.kind := kind;
      this.hasOnTouch := hasOnTouch;
      this.hasSliderUpdate := hasSliderUpdate;
      this.userData := userData;
      this.progressPercent := progressPercent;
      this.sliderValue := sliderValue;
      this.textAlign := textAlign;
    }
  }

  /** A call the toolkit makes out of its own code: a widget's on_touch, a
      slider's slider_update_callback, or a redraw request. */
  datatype Callback =
    | TouchCallback(widget: Widget, x: U16, y: U16)
    | SliderUpdated(widget: Widget, value: U32)
    | RedrawRequested(widget: Widget)

  /** The hit test of one widget. */
  predicate Hits(w: Widget, x: U16, y: U16)
  {
    HitBoxContains(w.kind, w.rect, x, y)
  }

  /** Index of the first widget, in registration order, whose expanded box holds
      (x, y); |ws| when there is none. */
  function FirstHit(ws: seq<Widget>, x: U16, y: U16): (i: nat)
    ensures i <= |ws|
    ensures i < |ws| ==> Hits(ws[i], x, y)
    ensures forall j :: 0 <= j < i && j < |ws| ==> !Hits(ws[j], x, y)
    decreases |ws|
  {
    if ws == [] then 0
    else if Hits(ws[0], x, y) then 0
    else 1 + FirstHit(ws[1..], x, y)
  }

  /** The widget a new press at (x, y) latches, or null over empty space. */
  function HitTarget(ws: seq<Widget>, x: U16, y: U16): Widget?
  {
    var i := FirstHit(ws, x, y);
    if i < |ws| then ws[i] else null
  }

  /** Overlapping boxes are resolved in favour of the earlier registration:
      whichever widget comes first among those holding the point is latched. */
  lemma EarliestRegistrationWins(ws: seq<Widget>, x: U16, y: U16, k: nat)
    requires k < |ws| && Hits(ws[k], x, y)
    requires forall j :: 0 <= j < k ==> !Hits(ws[j], x, y)
    ensures HitTarget(ws, x, y) == ws[k]
  {
  }

  /** A press tick on this widget goes to the default slider handler. */
  predicate UsesDefaultSliderHandler(w: Widget?)
  {
    w != null && w.kind == Slider && !w.hasOnTouch
  }

  /** The default slider handler divides by the slider's range unguarded. */
  predicate DispatchDefined(w: Widget?)
  {
    UsesDefaultSliderHandler(w) ==> SliderRange(w.rect) != 0
  }

  /** The calls default_slider_touch_handler makes for a touch at x: the value
      callback if set, a redraw of the linked progress bar if any, then a redraw
      of the slider. */
  function DefaultSliderCalls(w: Widget, x: U16): (cs: seq<Callback>)
    requires SliderRange(w.rect) != 0
    ensures |cs| == (if w.hasSliderUpdate then 1 else 0) + (if w.userData != null then 1 else 0) + 1
    ensures cs[|cs| - 1] == RedrawRequested(w)
    ensures (SliderUpdated(w, SliderValue(w.rect, x)) in cs) == w.hasSliderUpdate
    ensures w.hasSliderUpdate ==> cs[0] == SliderUpdated(w, SliderValue(w.rect, x))
    ensures w.userData != null ==> cs[|cs| - 2] == RedrawRequested(w.userData)
    ensures forall c :: c in cs ==> c.SliderUpdated? || c.RedrawRequested?
  {
    (if w.hasSliderUpdate then [SliderUpdated(w, SliderValue(w.rect, x))] else []) +
    (if w.userData != null then [RedrawRequested(w.userData)] else []) +
    [RedrawRequested(w)]
  }

  /** The calls a press tick makes on the latched widget: only a slider gets
      one, its on_touch if set, the default handler otherwise. */
  function PressCalls(w: Widget?, x: U16, y: U16): (cs: seq<Callback>)
    requires DispatchDefined(w)
    ensures w == null || w.kind != Slider ==> cs == []
    ensures w != null && w.kind == Slider && w.hasOnTouch ==> cs == [TouchCallback(w, x, y)]
    ensures UsesDefaultSliderHandler(w) ==> cs == DefaultSliderCalls(w, x)
  {
    if w == null || w.kind != Slider then []
    else if w.hasOnTouch then [TouchCallback(w, x, y)]
    else DefaultSliderCalls(w, x)
  }

  /** The calls a release makes: a latched button's on_touch, exactly once. */
  function ReleaseCalls(w: Widget?, x: U16, y: U16): (cs: seq<Callback>)
    ensures |cs| <= 1
    ensures |cs| == 1 <==> w != null && w.kind == Button && w.hasOnTouch
    ensures |cs| == 1 ==> cs[0] == TouchCallback(w, x, y)
  {
    if w != null && w.kind == Button && w.hasOnTouch then [TouchCallback(w, x, y)] else []
  }

  /** lcd_ui_context_t, without the display driver, whose calls are not part of
      this model. Contents is the registered sequence; Log records the calls the
      toolkit has made. */
  class Context {
    var widgets: array<Widget?>
    var widgetCapacity: U8
    var widgetCount: U8
    const screenWidth: U16
    const screenHeight: U16
    var activeWidget: Widget?
    var touchActive: bool
    ghost var Contents: seq<Widget>
    ghost var Log: seq<Callback>

    /** The registry occupies the first widgetCount slots of a buffer of at least
        widgetCapacity slots, and a latched widget implies a touch in progress. */
    ghost predicate Valid()
      reads this, widgets
    {
      widgetCapacity as int <= widgets.Length &&
      widgetCount <= widgetCapacity &&
      |Contents| == widgetCount as int &&
      (forall i :: 0 <= i < widgetCount ==> widgets[i] == Contents[i]) &&
      (activeWidget != null ==> touchActive)
    }

    /** lcd_ui_init. The screen size is what the driver reports; the buffer must
        hold capacity slots. The buffer's slots are not cleared. */
    constructor (buffer: array<Widget?>, capacity: U8, screenWidth: U16, screenHeight: U16)
      requires capacity as int <= buffer.Length
      ensures Valid()
      ensures widgets == buffer && widgetCapacity == capacity && widgetCount == 0
      ensures this.screenWidth == screenWidth && this.screenHeight == screenHeight
      ensures activeWidget == null && !touchActive
      ensures Contents == [] && Log == []
    {
      widgets := buffer;
      widgetCapacity := capacity;
      widgetCount := 0;
      activeWidget := null;
      touchActive := false;
      this.screenWidth := screenWidth;
      this.screenHeight := screenHeight;
      Contents := [];
      Log := [];
    }

    /** lcd_ui_clear_widgets: count to zero and every slot up to the capacity
        nulled; the touch session is left as it is. */
    method ClearWidgets()
      requires Valid()
      modifies this`widgetCount, this`Contents, widgets
      ensures Valid()
      ensures widgetCount == 0 && Contents == []
      ensures forall i :: 0 <= i < widgetCapacity ==> widgets[i] == null
      ensures forall i :: widgetCapacity <= i < widgets.Length ==> widgets[i] == old(widgets[i])
    {
      widgetCount := 0;
      Contents := [];
      var i: nat := 0;
      while i < widgetCapacity as nat
        invariant i <= widgetCapacity as nat
        invariant widgetCount == 0 && Contents == []
        invariant forall k :: 0 <= k < i ==> widgets[k] == null
        invariant forall k :: i <= k < widgets.Length ==> widgets[k] == old(widgets[k])
      {
        widgets[i] := null;
        i := i + 1;
      }
    }

    /** lcd_ui_add_widget. A null widget or a full registry leaves everything
        unchanged. Otherwise the widget goes into slot widgetCount and the count
        grows by one; an alignment beyond right is reset to left on the widget
        just stored. */
    method AddWidget(widget: Widget?)
      requires Valid()
      modifies this`widgetCount, this`Contents, widgets, widget
      ensures Valid()
      ensures widget == null || old(widgetCount) >= widgetCapacity ==>
                widgetCount == old(widgetCount) && Contents == old(Contents) &&
                widgets[..] == old(widgets[..]) && (widget != null ==> unchanged(widget))
      ensures widget != null && old(widgetCount) < widgetCapacity ==>
                widgetCount == old(widgetCount) + 1 && Contents == old(Contents) + [widget] &&
                widgets[old(widgetCount)] == widget &&
                (forall i :: 0 <= i < widgets.Length && i != old(widgetCount) as int ==>
                   widgets[i] == old(widgets[i])) &&
                widget.textAlign == (if old(widget.textAlign) > AlignRight then AlignLeft
                                     else old(widget.textAlign)) &&
                widget.sliderValue == old(widget.sliderValue) &&
                widget.progressPercent == old(widget.progressPercent)
    {
      if widget == null {
        return;
      }
      if widgetCount >= widgetCapacity {
        return;
      }
      widgets[widgetCount] := widget;
      widgetCount := widgetCount + 1;
      Contents := Contents + [widget];
      if widget.textAlign > AlignRight {
        widget.textAlign := AlignLeft;
      }
    }

    /** lcd_ui_add_widget as written. The widget is stored and counted as in
        AddWidget, but the alignment repair indexes the buffer with the count
        after the increment, the slot after the new widget. That slot is
        returned as the repair's target; the write itself is not performed,
        because the slot may lie outside the buffer or hold no widget, and the
        inserted widget keeps its alignment. */
    method AddWidgetAsWritten(widget: Widget?) returns (repairs: bool, slot: nat)
      requires Valid()
      modifies this`widgetCount, this`Contents, widgets
      ensures Valid()
      ensures widget == null || old(widgetCount) >= widgetCapacity ==>
                !repairs && widgetCount == old(widgetCount) && Contents == old(Contents) &&
                widgets[..] == old(widgets[..])
      ensures widget != null && old(widgetCount) < widgetCapacity ==>
                widgetCount == old(widgetCount) + 1 && Contents == old(Contents) + [widget] &&
                widgets[old(widgetCount)] == widget &&
                (forall i :: 0 <= i < widgets.Length && i != old(widgetCount) as int ==>
                   widgets[i] == old(widgets[i])) &&
                (repairs <==> widget.textAlign > AlignRight)
      ensures repairs ==> slot == widgetCount as int == old(widgetCount) as int + 1
      ensures widget != null ==> widget.textAlign == old(widget.textAlign)
    {
      repairs, slot := false, 0;
      if widget == null {
        return;
      }
      if widgetCount >= widgetCapacity {
        return;
      }
      widgets[widgetCount] := widget;
      widgetCount := widgetCount + 1;
      Contents := Contents + [widget];
      if widget.textAlign > AlignRight {
        repairs, slot := true, widgetCount as nat;
      }
    }

    /** The hit-test loop of lcd_ui_handle_touch: the first registered widget
        whose expanded box holds (x, y), or null. */
    method FindWidgetAt(x: U16, y: U16) returns (w: Widget?)
      requires Valid()
      ensures w == HitTarget(Contents, x, y)
    {
      var i: U8 := 0;
      while i < widgetCount
        invariant i <= widgetCount
        invariant forall j :: 0 <= j < i ==> !Hits(Contents[j], x, y)
      {
        var candidate := widgets[i];
        if Hits(candidate, x, y) {
          return candidate;
        }
        i := i + 1;
      }
      return null;
    }

    /** The widget a press tick at (x, y) is routed to: the latched one while a
        touch is in progress, otherwise the result of the hit test. */
    ghost function PressTarget(x: U16, y: U16): Widget?
      reads this
    {
      if touchActive then activeWidget else HitTarget(Contents, x, y)
    }

    /** The widgets a press tick at (x, y) may write: the slider whose value the
        default handler sets, and its linked progress bar. */
    ghost function SliderWrites(isPressed: bool, x: U16, y: U16): set<Widget>
      reads this
    {
      var t := PressTarget(x, y);
      if isPressed && UsesDefaultSliderHandler(t) then {t} else {}
    }

    ghost function LinkedWrites(isPressed: bool, x: U16, y: U16): set<Widget>
      reads this
    {
      var t := PressTarget(x, y);
      if isPressed && UsesDefaultSliderHandler(t) && t.userData != null then {t.userData} else {}
    }

    /** default_slider_touch_handler: stores the value for x, reports it to the
        value callback, sets a linked progress bar to its complement and asks for
        the redraws. */
    method DefaultSliderTouch(w: Widget, x: U16, y: U16)
      requires SliderRange(w.rect) != 0
      modifies this`Log, w`sliderValue, (if w.userData == null then {} else {w.userData})`progressPercent
      ensures w.sliderValue == SliderValue(w.rect, x)
      ensures w.userData != null ==> w.userData.progressPercent == 100 - SliderValue(w.rect, x)
      ensures Log == old(Log) + DefaultSliderCalls(w, x)
    {
      var newValue := SliderValue(w.rect, x);
      w.sliderValue := newValue;
      if w.hasSliderUpdate {
        Log := Log + [SliderUpdated(w, newValue)];
      }
      var linked := w.userData;
      if linked != null {
        linked.progressPercent := 100 - w.sliderValue;
        Log := Log + [RedrawRequested(linked)];
      }
      Log := Log + [RedrawRequested(w)];
    }

    /** lcd_ui_handle_touch. On a press tick with no touch in progress, starts a
        touch and latches the hit-test result (possibly none); with a touch in
        progress keeps the latched widget. Either way a latched slider gets the
        tick. On release, a latched button's on_touch fires and the session is
        cleared. */
    method HandleTouch(x: U16, y: U16, isPressed: bool)
      requires Valid()
      requires isPressed ==> DispatchDefined(PressTarget(x, y))
      modifies this`touchActive, this`activeWidget, this`Log
      modifies SliderWrites(isPressed, x, y)`sliderValue
      modifies LinkedWrites(isPressed, x, y)`progressPercent
      ensures Valid()
      ensures touchActive == isPressed
      ensures isPressed ==> activeWidget == old(PressTarget(x, y))
      ensures isPressed && old(touchActive) ==> activeWidget == old(activeWidget)
      ensures isPressed ==> Log == old(Log) + PressCalls(old(PressTarget(x, y)), x, y)
      ensures isPressed && UsesDefaultSliderHandler(activeWidget) ==>
                activeWidget.sliderValue == SliderValue(activeWidget.rect, x) &&
                (activeWidget.userData != null ==>
                   activeWidget.userData.progressPercent == 100 - SliderValue(activeWidget.rect, x))
      ensures !isPressed ==> activeWidget == null
      ensures !isPressed ==> Log == old(Log) + ReleaseCalls(old(activeWidget), x, y)
    {
      if isPressed {
        if !touchActive {
          touchActive := true;
          activeWidget := null;
          activeWidget := FindWidgetAt(x, y);
        }
        var w := activeWidget;
        if w != null && w.kind == Slider {
          if w.hasOnTouch {
            Log := Log + [TouchCallback(w, x, y)];
          } else {
            DefaultSliderTouch(w, x, y);
          }
        }
      } else {
        var w := activeWidget;
        if w != null && w.kind == Button && w.hasOnTouch {
          Log := Log + [TouchCallback(w, x, y)];
        }
        touchActive := false;
        activeWidget := null;
      }
    }
  }

  /** lcd_ui_get_screen_width: 0 for a missing context. */
  function ScreenWidth(ctx: Context?): U16
  {
    if ctx == null then 0 else ctx.screenWidth
  }

  /** lcd_ui_get_screen_height: 0 for a missing context. */
  function ScreenHeight(ctx: Context?): U16
  {
    if ctx == null then 0 else ctx.screenHeight
  }

  /** Adding a widget with alignment 3 to an empty registry of capacity 1: the
      widget fills the only slot, the repair as written targets the slot at the
      buffer's length, outside it, and the inserted widget keeps alignment 3. */
  method AlignRepairOverrunsBuffer() returns (ctx: Context, w: Widget, slot: nat)
    ensures ctx.widgetCount == ctx.widgetCapacity == 1 && ctx.Contents == [w]
    ensures slot == ctx.widgets.Length
    ensures w.textAlign == 3
  {
    var buffer := new Widget?[1];
    ctx := new Context(buffer, 1, 480, 272);
    w := new Widget(Rect(0, 0, 40, 20), Button, false, false, null, 0, 0, 3);
    var repairs;
    repairs, slot := ctx.AddWidgetAsWritten(w);
  }
}
