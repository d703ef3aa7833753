/** Clients of the toolkit model: each method drives a context through one of
    representative interaction sequences, and the assertions follow from the
    contracts alone. */
module Scenarios {
  import opened Uint
  import opened LcdGeometry
  import opened LcdUi
  import opened TouchUi

  /** A registry of capacity 5 rejects a sixth widget. */
  method RegistryFills()
  {
    var buffer := new Widget?[5];
    var ctx := new Context(buffer, 5, 480, 272);
    var n := 0;
    while n < 6
      invariant 0 <= n <= 6
      invariant ctx.Valid() && ctx.widgets == buffer && ctx.widgetCapacity == 5
      invariant ctx.widgetCount as int == if n < 5 then n else 5
    {
      var w := new Widget(Rect(0, 0, 10, 10), Label, false, false, null, 0, 0, AlignLeft);
      ctx.AddWidget(w);
      n := n + 1;
    }
    assert ctx.widgetCount == 5;
  }

  /** A tap on a button: the press latches it, the release fires its callback
      once and ends the session. */
  method ButtonTap()
  {
    var buffer := new Widget?[4];
    var ctx := new Context(buffer, 4, 480, 272);
    var a := new Widget(Rect(50, 50, 40, 20), Button, true, false, null, 0, 0, AlignCenter);
    ctx.AddWidget(a);
    assert ctx.Contents == [a];
    assert Hits(a, 50, 50);
    ctx.HandleTouch(50, 50, true);
    assert ctx.activeWidget == a && ctx.Log == [];
    ctx.HandleTouch(50, 50, false);
    assert ctx.Log == [TouchCallback(a, 50, 50)];
    assert !ctx.touchActive && ctx.activeWidget == null;
    assert ScreenWidth(ctx) == 480 && ScreenHeight(ctx) == 272;
  }

  /** Of two overlapping widgets the earlier registered one is latched. */
  method OverlapPrefersEarlier()
  {
    var buffer := new Widget?[2];
    var ctx := new Context(buffer, 2, 480, 272);
    var b := new Widget(Rect(20, 20, 60, 30), Button, true, false, null, 0, 0, AlignLeft);
    var a := new Widget(Rect(30, 25, 60, 30), Button, true, false, null, 0, 0, AlignLeft);
    ctx.AddWidget(b);
    ctx.AddWidget(a);
    assert ctx.Contents == [b, a];
    assert Hits(b, 40, 30) && Hits(a, 40, 30);
    EarliestRegistrationWins(ctx.Contents, 40, 30, 0);
    ctx.HandleTouch(40, 30, true);
    assert ctx.activeWidget == b;
  }

  /** A slider stays latched while the finger leaves every widget, keeps taking
      the default handler's updates, and its release fires nothing. */
  method SliderDragOutside()
  {
    var buffer := new Widget?[2];
    var ctx := new Context(buffer, 2, 480, 272);
    var bar := new Widget(Rect(0, 100, 100, 10), ProgressBar, false, false, null, 0, 0, AlignLeft);
    var s := new Widget(Rect(0, 0, 100, 20), Slider, false, true, bar, 0, 0, AlignLeft);
    ctx.AddWidget(s);
    assert ctx.Contents == [s];
    assert Hits(s, 50, 10);
    SliderValueExample();
    ctx.HandleTouch(50, 10, true);
    assert ctx.activeWidget == s && s.sliderValue == 50 && bar.progressPercent == 50;
    SliderValueSaturates(s.rect, 400);
    ctx.HandleTouch(400, 200, true);
    assert ctx.activeWidget == s && s.sliderValue == 100 && bar.progressPercent == 0;
    var before := ctx.Log;
    ctx.HandleTouch(400, 200, false);
    assert ctx.Log == before && !ctx.touchActive;
  }

  /** Press, move, hold still and release, as the normaliser reports them. */
  method NormaliserSequence()
  {
    var tc := new TouchContext();
    var e := ProcessInput(tc, 10, 20, true, 100);
    assert e.eventType == Pressed && tc.State().lastPressTimestamp == 100;
    e := ProcessInput(tc, 12, 20, true, 110);
    assert e.eventType == Moved;
    e := ProcessInput(tc, 12, 20, true, 120);
    assert e.eventType == None;
    e := ProcessInput(tc, 0, 0, false, 130);
    assert e.eventType == Released && tc.State() == TouchState(false, 12, 20, 100);
    e := ProcessInput(null, 5, 5, true, 140);
    assert e == TouchEvent(None, 5, 5, 140);
  }
}
